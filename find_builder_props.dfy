/** What the find builder promises: which columns a select projects and in which order,
    the ordering it records, the joins and child plans each relation kind adds, and
    the shape of the plan `build` returns. */
module FindBuilderProps {
  import opened Js
  import opened Schema
  import opened FindContext
  import opened WhereBuilder
  import opened FindBuilder

  /** The select entries that project a column, in key order. */
  function Kept(entries: Fields, onlyTrue: bool): Fields
  {
    if entries == [] then []
    else
      var last := entries[|entries| - 1];
      Kept(entries[..|entries| - 1], onlyTrue) + (if Keeps(last.1, onlyTrue) then [last] else [])
  }

  /** Every kept entry names a column of the entity. */
  predicate AllColumns(columns: seq<Column>, kept: Fields)
  {
    forall k :: 0 <= k < |kept| ==> FindColumn(columns, kept[k].0).Some?
  }

  /** One projected column per kept entry, in order. */
  function Projected(columns: seq<Column>, source: string, prefix: string, kept: Fields): (r: seq<ColumnRef>)
    requires AllColumns(columns, kept)
    ensures |r| == |kept|
  {
    seq(|kept|, k requires 0 <= k < |kept| && FindColumn(columns, kept[k].0).Some? =>
                  FieldRef(source, prefix, FindColumn(columns, kept[k].0).value))
  }

  /** A select loop succeeds exactly when every kept key is a column, and then appends
      one column per kept key, in key order; otherwise it throws reading `columnName`. */
  lemma {:induction false} SelectFold(columns: seq<Column>, onlyTrue: bool, source: string, prefix: string,
                                      init: seq<ColumnRef>, entries: Fields)
    ensures var r, kept := FoldRun(SelectStep(columns, onlyTrue, source, prefix), init, entries), Kept(entries, onlyTrue);
      (r.error.None? <==> AllColumns(columns, kept))
      && (r.error.Some? ==> r.error == Some(UndefinedRead))
      && (r.error.None? ==> r.state == init + Projected(columns, source, prefix, kept))
    decreases |entries|
  {
    if entries != [] {
      var step := SelectStep(columns, onlyTrue, source, prefix);
      var n := |entries| - 1;
      var last := entries[n];
      var prev := FoldRun(step, init, entries[..n]);
      var before := Kept(entries[..n], onlyTrue);
      var kept := Kept(entries, onlyTrue);
      SelectFold(columns, onlyTrue, source, prefix, init, entries[..n]);
      assert kept == before + (if Keeps(last.1, onlyTrue) then [last] else []);
      assert kept[..|before|] == before;
      if prev.error.Some? {
        assert !AllColumns(columns, kept);
      } else if Keeps(last.1, onlyTrue) {
        assert kept[|before|] == last;
        if FindColumn(columns, last.0).Some? {
          assert AllColumns(columns, kept);
          assert Projected(columns, source, prefix, kept)
              == Projected(columns, source, prefix, before) + [FieldRef(source, prefix, FindColumn(columns, last.0).value)];
        }
      }
    }
  }

  /** An orderBy loop succeeds exactly when every key is a column, and then appends one
      order per key, in key order, descending exactly for the value `'desc'`. */
  lemma OrderFold(columns: seq<Column>, init: seq<Order>, entries: Fields)
    ensures var r := FoldRun(OrderStep(columns), init, entries);
      (r.error.None? <==> AllColumns(columns, entries))
      && (r.error.Some? ==> r.error == Some(UndefinedRead))
      && (r.error.None? ==>
            |r.state| == |init| + |entries| && r.state[..|init|] == init
            && var added := r.state[|init|..];
               forall k :: 0 <= k < |entries| ==>
                 added[k].source == "root"
                 && added[k].name == FindColumn(columns, entries[k].0).value.columnName
                 && (added[k].direction == Desc <==> entries[k].1 == Str("desc")))
  {
    var step := OrderStep(columns);
    var ok := (e: (string, Value)) => FindColumn(columns, e.0).Some?;
    var err := (e: (string, Value)) => UndefinedRead;
    var g := (e: (string, Value)) =>
      Order("root", if ok(e) then FindColumn(columns, e.0).value.columnName else "",
            if StrictEq(e.1, Str("desc")) then Desc else Asc);
    forall s, e ensures (step(s, e).error.None? <==> ok(e))
      && (step(s, e).error.Some? ==> step(s, e).error == Some(err(e)))
      && (ok(e) ==> step(s, e) == Run(s + [g(e)], None))
    {
    }
    FoldRunOkIff(step, init, entries, ok);
    FoldRunFirstError(step, init, entries, ok, err);
    assert AllColumns(columns, entries) <==> forall j :: 0 <= j < |entries| ==> ok(entries[j]);
    if AllColumns(columns, entries) {
      FoldRunMaps(step, init, entries, ok, g);
      var r := FoldRun(step, init, entries).state;
      var added := r[|init|..];
      forall k | 0 <= k < |entries|
        ensures added[k].source == "root"
          && added[k].name == FindColumn(columns, entries[k].0).value.columnName
          && (added[k].direction == Desc <==> entries[k].1 == Str("desc"))
      {
        assert ok(entries[k]) && added[k] == r[|init| + k] == g(entries[k]);
      }
    }
  }

  /** A many-to-one include adds exactly one join, inner exactly when the relation is
      non-null, reading the join entity under the relation's name; its columns are
      aliased `<relation>.<field>` (every column for `true`, else the keys that are not
      `false`); no child, temporal column or staging table is added. */
  lemma ManyToOneShape(relation: Relation, value: Value, p: FindPlan)
    requires relation.ManyToOne?
    ensures var r, name, columns := ManyToOneRun(relation, value, p), relation.info.name, relation.joinEntity.columns;
      var j := r.state.joins[|p.joins|];
      |r.state.joins| == |p.joins| + 1 && r.state.joins[..|p.joins|] == p.joins
      && (j.joinType == InnerJoin <==> relation.info.nonNull)
      && j.from.TableAccess? && j.from.table == relation.joinEntity.tableName && j.from.alias == Some(name)
      && j.conditions == [Cond(ColumnSide(Some(name), relation.inverseColumn), "=",
                               Single(ColumnSide(Some("root"), relation.joinColumn)))]
      && r.state.into == p.into && r.state.children == p.children && r.state.temporalColumns == p.temporalColumns
      && r.state.where == p.where && r.state.params == p.params && r.state.orderBy == p.orderBy
      && (StrictEq(value, Bool(true)) ==>
            r.error.None?
            && |r.state.columns| == |p.columns| + |columns| && r.state.columns[..|p.columns|] == p.columns
            && forall k :: 0 <= k < |columns| ==>
                 r.state.columns[|p.columns| + k] == ColumnRef(Some(name), columns[k].columnName, Some(name + "." + columns[k].info.name)))
      && (!StrictEq(value, Bool(true)) ==>
            (r.error.None? <==> AllColumns(columns, Kept(Entries(value), false)))
            && (r.error.None? ==> r.state.columns == p.columns + Projected(columns, name, name + ".", Kept(Entries(value), false))))
  {
    var name := relation.info.name;
    if !StrictEq(value, Bool(true)) {
      SelectFold(relation.joinEntity.columns, false, name, name + ".", p.columns, Entries(value));
    }
  }

  /** The child plan of a to-many include: `#main` joined first, inner, as `parent`, on
      its `__<joinColumn>` column; its columns are the `value.select` keys whose value
      is `true`. */
  predicate ParentJoined(child: FindPlan, joinColumn: string)
  {
    |child.joins| >= 1
    && child.joins[0].joinType == InnerJoin
    && child.joins[0].from.alias == Some("parent")
    && |child.joins[0].conditions| == 1
    && child.joins[0].conditions[0].left == ColumnSide(Some("parent"), "__" + joinColumn)
    && child.joins[0].conditions[0].operator == "="
  }

  /** Staging and the child push of a to-many include: `into` is `#main`, exactly one
      temporal column `__<joinColumn>` is appended, and exactly one child is appended
      when the child select succeeds; columns and joins of the parent do not change. */
  predicate StagedAndPushed(p: FindPlan, r: Run<FindPlan>, joinColumn: string, columns: seq<Column>, select: Value)
    requires r.error.None? ==> AllColumns(columns, Kept(Entries(select), true))
  {
    r.state.into == Some(Main)
    && r.state.temporalColumns == p.temporalColumns + [ColumnRef(Some("root"), joinColumn, Some("__" + joinColumn))]
    && r.state.columns == p.columns && r.state.joins == p.joins
    && r.state.where == p.where && r.state.params == p.params && r.state.orderBy == p.orderBy
    && (r.error.Some? ==> r.state.children == p.children)
    && (r.error.None? ==>
          |r.state.children| == |p.children| + 1 && r.state.children[..|p.children|] == p.children
          && ParentJoined(r.state.children[|p.children|], joinColumn)
          && r.state.children[|p.children|].columns == Projected(columns, "root", "", Kept(Entries(select), true)))
  }

  lemma ChildRunShape(p: FindPlan, child: FindPlan, joinColumn: string, columns: seq<Column>, value: Value)
    requires Get(value, "select").Ok?
    requires ParentJoined(child, joinColumn)
    ensures var r := ChildRun(Staged(p, joinColumn), child, columns, value);
      (r.error.None? <==> AllColumns(columns, Kept(Entries(Get(value, "select").value), true)))
      && StagedAndPushed(p, r, joinColumn, columns, Get(value, "select").value)
  {
    SelectFold(columns, true, "root", "", [], Entries(Get(value, "select").value));
  }

  /** A many-to-many include: staging and one child as above; the child reads the link
      entity as `many`, and its second join brings the target entity in as `root` on
      `inverseColumn = many.manyInverseColumn`. Reading `select` of `null` or
      `undefined` throws. */
  lemma ManyToManyShape(relation: Relation, value: Value, p: FindPlan)
    requires relation.ManyToMany?
    ensures var r := ManyToManyRun(relation, value, p);
      (Nullish(value) ==> r.error.Some? && r.error.value.TypeError? && r.state == Staged(p, relation.joinColumn))
      && (!Nullish(value) ==>
            var select := Prop(value, "select");
            (r.error.None? <==> AllColumns(relation.joinEntity.columns, Kept(Entries(select), true)))
            && StagedAndPushed(p, r, relation.joinColumn, relation.joinEntity.columns, select)
            && (r.error.None? ==>
                  var child := r.state.children[|p.children|];
                  var many := relation.manyEntity;
                  child.from == Some(BuildTableAccessor(many.tableName, "many", many.schema, many.database))
                  && |child.joins| == 2
                  && child.joins[0].conditions[0].right == Single(ColumnSide(Some("many"), relation.manyJoinColumn))
                  && child.joins[1].joinType == InnerJoin
                  && child.joins[1].from.alias == Some("root")
                  && child.joins[1].from.table == relation.joinEntity.tableName
                  && child.joins[1].conditions == [Cond(ColumnSide(Some("root"), relation.inverseColumn), "=",
                                                        Single(ColumnSide(Some("many"), relation.manyInverseColumn)))]))
  {
    if !Nullish(value) {
      ChildRunShape(p, ManyToManyChild(relation), relation.joinColumn, relation.joinEntity.columns, value);
    }
  }

  /** A one-to-many include: staging and one child as above, the child reading the
      target entity as `root`. The `select` key is required: without it the include
      throws `Expected select object` with `#main` and the temporal column already in
      place, and on a primitive value the `in` test itself throws. */
  lemma OneToManyShape(relation: Relation, value: Value, p: FindPlan)
    requires relation.OneToMany?
    ensures var r := OneToManyRun(relation, value, p);
      var target := relation.joinEntity;
      (value.Obj? && "select" !in Keys(value.fields) ==>
         r == Run(Staged(p, relation.joinColumn), Some(Raised(ExpectedSelect))))
      && (value.Bool? || value.Num? || value.Str? || Nullish(value) ==>
            r.error.Some? && r.error.value.TypeError? && r.state == Staged(p, relation.joinColumn))
      && (value.Obj? && "select" in Keys(value.fields) ==>
            var select := Prop(value, "select");
            (r.error.None? <==> AllColumns(target.columns, Kept(Entries(select), true)))
            && StagedAndPushed(p, r, relation.joinColumn, target.columns, select)
            && (r.error.None? ==>
                  var child := r.state.children[|p.children|];
                  child.from == Some(BuildTableAccessor(target.tableName, "root", target.schema, target.database))
                  && |child.joins| == 1
                  && child.joins[0].conditions[0].right == Single(ColumnSide(Some("root"), relation.inverseColumn))))
  {
    if value.Obj? && "select" in Keys(value.fields) {
      ChildRunShape(p, OneToManyChild(relation), relation.joinColumn, relation.joinEntity.columns, value);
    }
  }

  /** What an include never touches (`params`, `where`, `orderBy`, `from`, `skip`,
      `take`) and what it only appends to (columns, joins, temporal columns,
      children); `into` can only become `#main`. */
  predicate Extends(p: FindPlan, q: FindPlan)
  {
    q.params == p.params && q.where == p.where && q.orderBy == p.orderBy
    && q.from == p.from && q.skip == p.skip && q.take == p.take
    && p.columns <= q.columns && p.joins <= q.joins
    && p.temporalColumns <= q.temporalColumns && p.children <= q.children
    && (q.into == p.into || q.into == Some(Main))
  }

  lemma RelationExtends(relation: Relation, value: Value, p: FindPlan)
    ensures Extends(p, RelationRun(relation, value, p).state)
  {
    match relation
    case ManyToMany(_, _, _, _, _, _, _, _, _, _) =>
      ManyToManyShape(relation, value, p);
    case ManyToOne(_, _, _, _) =>
      ManyToOneShape(relation, value, p);
      if !StrictEq(value, Bool(true)) {
        PrefixKept(relation.joinEntity.columns, false, relation.info.name, relation.info.name + ".", p.columns, Entries(value));
      }
    case OneToMany(_, _, _, _) =>
      OneToManyShape(relation, value, p);
  }

  /** A select loop only ever appends, whether or not it throws. */
  lemma {:induction false} PrefixKept(columns: seq<Column>, onlyTrue: bool, source: string, prefix: string,
                                      init: seq<ColumnRef>, entries: Fields)
    ensures init <= FoldRun(SelectStep(columns, onlyTrue, source, prefix), init, entries).state
  {
    var inv := (s: seq<ColumnRef>) => init <= s;
    FoldRunKeeps(SelectStep(columns, onlyTrue, source, prefix), init, entries, inv);
  }

  /** Whatever includes a request lists, and whether or not one throws, the include
      loop leaves the filters, the ordering, `from`, `skip` and `take` alone and only
      appends to columns, joins, temporal columns and children. */
  lemma IncludeExtends(entity: Entity, p: FindPlan, entries: Fields)
    ensures Extends(p, FoldRun(IncludeStep(entity), p, entries).state)
  {
    var inv := (q: FindPlan) => Extends(p, q);
    forall q: FindPlan, e: (string, Value) | inv(q)
      ensures inv(IncludeStep(entity)(q, e).state)
    {
      if !StrictEq(e.1, Bool(false)) && FindRelation(entity.relations, e.0).Some? {
        RelationExtends(FindRelation(entity.relations, e.0).value, e.1, q);
      }
    }
    FoldRunKeeps(IncludeStep(entity), p, entries, inv);
  }

  /** `build`: the root table is read as `root`, `skip` and `take` are copied as given,
      the select keys that are not `false` come first among the columns, and where,
      orderBy and include leave no trace when they are absent or falsy. Reading the
      arguments of `null` or `undefined` throws. */
  lemma BuildShape(entity: Entity, args: Value)
    ensures Nullish(args) ==> BuildPlan(entity, args).Err? && BuildPlan(entity, args).error.TypeError?
    ensures BuildPlan(entity, args).Ok? ==>
      var p := BuildPlan(entity, args).value;
      var kept := Kept(Entries(Prop(args, "select")), false);
      p.from == Some(BuildTableAccessor(entity.tableName, "root", entity.schema, entity.database))
      && p.skip == Prop(args, "skip") && p.take == Prop(args, "take")
      && AllColumns(entity.columns, kept)
      && Projected(entity.columns, "root", "", kept) <= p.columns
      && (!Truthy(Prop(args, "where")) ==> p.params == [] && p.where == [])
      && (!Truthy(Prop(args, "orderBy")) ==> p.orderBy == [])
      && (!Truthy(Prop(args, "include")) ==>
            p.joins == [] && p.temporalColumns == [] && p.children == [] && p.into == None
            && p.columns == Projected(entity.columns, "root", "", kept))
  {
    if BuildPlan(entity, args).Ok? {
      var p3 := BuildStages(entity, args);
      SelectFold(entity.columns, false, "root", "", [], Entries(Prop(args, "select")));
    }
  }

  /** The plan `build` has reached before the include loop, and what that loop keeps of it. */
  lemma BuildStages(entity: Entity, args: Value) returns (p3: FindPlan)
    requires BuildPlan(entity, args).Ok?
    ensures p3.from == Some(BuildTableAccessor(entity.tableName, "root", entity.schema, entity.database))
    ensures p3.skip == Prop(args, "skip") && p3.take == Prop(args, "take")
    ensures p3.columns == FoldRun(SelectStep(entity.columns, false, "root", ""), [], Entries(Prop(args, "select"))).state
    ensures FoldRun(SelectStep(entity.columns, false, "root", ""), [], Entries(Prop(args, "select"))).error.None?
    ensures !Truthy(Prop(args, "where")) ==> p3.params == [] && p3.where == []
    ensures !Truthy(Prop(args, "orderBy")) ==> p3.orderBy == []
    ensures p3.joins == [] && p3.temporalColumns == [] && p3.children == [] && p3.into == None
    ensures Extends(p3, BuildPlan(entity, args).value)
    ensures !Truthy(Prop(args, "include")) ==> BuildPlan(entity, args).value == p3
  {
    var select := Prop(args, "select");
    var s := FoldRun(SelectStep(entity.columns, false, "root", ""), [], Entries(select));
    var p0 := EmptyPlan.(from := Some(BuildTableAccessor(entity.tableName, "root", entity.schema, entity.database)),
                         skip := Prop(args, "skip"), take := Prop(args, "take"), columns := s.state);
    var where := Prop(args, "where");
    var w := if Truthy(where) then WhereRun(where, entity, Some("root"), Filters([], [])) else Run(Filters([], []), None);
    var orderBy := Prop(args, "orderBy");
    var o := if Truthy(orderBy) then FoldRun(OrderStep(entity.columns), [], Entries(orderBy)) else Run([], None);
    p3 := p0.(params := w.state.params, where := w.state.where, orderBy := o.state);
    IncludeExtends(entity, p3, Entries(Prop(args, "include")));
  }
}
