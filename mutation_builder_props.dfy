/** What the update, delete and create builders promise: which data properties are
    accepted, what a row holds, which errors come first, and how the read-back plan
    is wired to the staging table. */
module MutationBuilderProps {
  import opened Js
  import opened Schema
  import opened FindContext
  import opened WhereBuilder
  import opened FindBuilder
  import opened FindBuilderProps
  import opened DeleteContext
  import opened UpdateContext
  import opened CreateContext
  import opened Returning
  import UpdateBuilder
  import DeleteBuilder
  import CreateBuilder

  // ---------------------------------------------------------------- update rows

  /** The physical column a data property writes, or nothing for a non-column. */
  function Physical(entity: Entity, field: string): string
  {
    match FindColumn(entity.columns, field)
    case Some(c) => c.columnName
    case None => ""
  }

  predicate AllColumnFields(entity: Entity, entries: Fields)
  {
    forall i :: 0 <= i < |entries| ==> FindColumn(entity.columns, entries[i].0).Some?
  }

  /** No later property writes the same column as property `i`. */
  predicate LastWrite(entity: Entity, entries: Fields, i: nat)
    requires i < |entries|
  {
    forall j :: i < j < |entries| ==> Physical(entity, entries[j].0) != Physical(entity, entries[i].0)
  }

  /** The row loop of the update builder succeeds exactly when every property names a
      column; otherwise it throws for the first property that does not, with the
      relation error when that property is a relation. */
  lemma RowErrors(entity: Entity, init: Fields, entries: Fields)
    ensures FoldResult(UpdateBuilder.RowStep(entity), init, entries).Ok? <==> AllColumnFields(entity, entries)
    ensures forall i :: 0 <= i < |entries| && FindColumn(entity.columns, entries[i].0).None? ==>
      (forall j :: 0 <= j < i ==> FindColumn(entity.columns, entries[j].0).Some?) ==>
      FoldResult(UpdateBuilder.RowStep(entity), init, entries) == Err(UpdateBuilder.FieldError(entity, entries[i].0))
  {
    var ok := (e: (string, Value)) => FindColumn(entity.columns, e.0).Some?;
    var err := (e: (string, Value)) => UpdateBuilder.FieldError(entity, e.0);
    FoldResultOkIff(UpdateBuilder.RowStep(entity), init, entries, ok);
    FoldResultFirstError(UpdateBuilder.RowStep(entity), init, entries, ok, err);
  }

  /** One property written into the row under its column's physical name. */
  function WriteColumn(entity: Entity): (Fields, (string, Value)) -> Fields
  {
    (row: Fields, e: (string, Value)) => Put(row, Physical(entity, e.0), e.1)
  }

  /** When every property names a column, the row loop writes each in turn. */
  lemma RowReduces(entity: Entity, init: Fields, entries: Fields)
    requires AllColumnFields(entity, entries)
    ensures FoldResult(UpdateBuilder.RowStep(entity), init, entries) == Ok(FoldLeft(WriteColumn(entity), init, entries))
  {
    var ok := (e: (string, Value)) => FindColumn(entity.columns, e.0).Some?;
    FoldResultReduces(UpdateBuilder.RowStep(entity), init, entries, ok, WriteColumn(entity));
  }

  /** A column holds the value of the last property that wrote it. */
  lemma RowWrites(entity: Entity, init: Fields, entries: Fields, i: nat)
    requires AllColumnFields(entity, entries) && i < |entries| && LastWrite(entity, entries, i)
    ensures FoldResult(UpdateBuilder.RowStep(entity), init, entries).Ok?
    ensures Lookup(FoldResult(UpdateBuilder.RowStep(entity), init, entries).value, Physical(entity, entries[i].0)) == entries[i].1
  {
    RowReduces(entity, init, entries);
    FoldPutLast(WriteColumn(entity), (e: (string, Value)) => Physical(entity, e.0), (e: (string, Value)) => e.1, init, entries, i);
  }

  /** A key no property writes keeps its value. */
  lemma RowKeeps(entity: Entity, init: Fields, entries: Fields, k: string)
    requires AllColumnFields(entity, entries)
    requires forall i :: 0 <= i < |entries| ==> Physical(entity, entries[i].0) != k
    ensures FoldResult(UpdateBuilder.RowStep(entity), init, entries).Ok?
    ensures Lookup(FoldResult(UpdateBuilder.RowStep(entity), init, entries).value, k) == Lookup(init, k)
  {
    RowReduces(entity, init, entries);
    FoldPutKeeps(WriteColumn(entity), (e: (string, Value)) => Physical(entity, e.0), (e: (string, Value)) => e.1, init, entries, k);
  }

  /** The row gains no keys but the written columns. */
  lemma RowKeys(entity: Entity, init: Fields, entries: Fields)
    requires AllColumnFields(entity, entries)
    ensures FoldResult(UpdateBuilder.RowStep(entity), init, entries).Ok?
    ensures forall k :: k in Keys(FoldResult(UpdateBuilder.RowStep(entity), init, entries).value) ==>
      k in Keys(init) || exists i :: 0 <= i < |entries| && k == Physical(entity, entries[i].0)
  {
    RowReduces(entity, init, entries);
    FoldPutKeys(WriteColumn(entity), (e: (string, Value)) => Physical(entity, e.0), (e: (string, Value)) => e.1, init, entries);
  }

  /** The rows of an update: one per data object, in order, each that object's row;
      the loop fails exactly when some object's row throws. */
  lemma RowsFold(entity: Entity, init: seq<Fields>, items: seq<Value>)
    ensures FoldResult(UpdateBuilder.RowsStep(entity), init, items).Ok? <==>
      forall k :: 0 <= k < |items| ==> UpdateBuilder.RowOf(entity, items[k]).Ok?
    ensures FoldResult(UpdateBuilder.RowsStep(entity), init, items).Ok? ==>
      var rows := FoldResult(UpdateBuilder.RowsStep(entity), init, items).value;
      |rows| == |init| + |items| && rows[..|init|] == init
      && forall k :: 0 <= k < |items| ==> UpdateBuilder.RowOf(entity, items[k]) == Ok(rows[|init| + k])
  {
    var ok := (item: Value) => UpdateBuilder.RowOf(entity, item).Ok?;
    FoldResultOkIff(UpdateBuilder.RowsStep(entity), init, items, ok);
    if forall k :: 0 <= k < |items| ==> ok(items[k]) {
      var g := (item: Value) => if ok(item) then UpdateBuilder.RowOf(entity, item).value else [];
      FoldResultMaps(UpdateBuilder.RowsStep(entity), init, items, ok, g);
    }
  }

  // ---------------------------------------------------------------- update plan

  /** Only an object gets past the data loop, so the projection test reads its keys. */
  lemma HeadOnlyObjects(entity: Entity, args: Value, buildWhere: WhereFn)
    ensures UpdateBuilder.HeadOf(entity, args, buildWhere).Ok? ==> args.Obj?
  {
  }

  /** `build` of an update: the entity is set, `pks` are the primary columns, there
      is one row per data object, and nothing is assigned to the SET list. A staging
      table `@outputData` and a read-back plan are set together, exactly when the
      arguments carry a `select` or `include` key; the read-back plan is the find
      plan of that projection with the staging table joined in front of its own
      joins, as `sourceData`, on every primary key column against `root`. */
  lemma UpdateBuildShape(entity: Entity, args: Value, buildWhere: WhereFn)
    ensures UpdateBuilder.UpdatePlanOf(entity, args, buildWhere).Ok? ==>
      var p := UpdateBuilder.UpdatePlanOf(entity, args, buildWhere).value;
      var items := Iterate(Prop(args, "data")).value;
      args.Obj?
      && p.entity == Some(entity) && p.pks == PrimaryColumns(entity.columns) && p.assignments == []
      && |p.rows| == |items|
      && (forall k :: 0 <= k < |items| ==> UpdateBuilder.RowOf(entity, items[k]) == Ok(p.rows[k]))
      && (!Truthy(Prop(args, "where")) ==> p.params == [] && p.where == [])
      && (p.tempTable.Some? <==> p.returning.Some?)
      && (p.tempTable.Some? ==> p.tempTable == Some(OutputData))
      && (p.returning.Some? <==> "select" in Keys(args.fields) || "include" in Keys(args.fields))
      && (p.returning.Some? ==>
            var q := BuildPlan(entity, Projection(args)).value;
            p.returning.value == q.(joins := [UpdateBuilder.SourceJoin(p.pks, Some("root"))] + q.joins))
  {
    var h := UpdateBuilder.HeadOf(entity, args, buildWhere);
    if UpdateBuilder.UpdatePlanOf(entity, args, buildWhere).Ok? {
      UpdateHeadShape(entity, args, buildWhere);
      UpdateReturningShape(h.value, entity, args);
    }
  }

  /** Starting from no rows, row `k` is the row of item `k`. */
  lemma ItemRows(entity: Entity, items: seq<Value>)
    ensures FoldResult(UpdateBuilder.RowsStep(entity), [], items).Ok? ==>
      var rows := FoldResult(UpdateBuilder.RowsStep(entity), [], items).value;
      |rows| == |items| && forall k :: 0 <= k < |items| ==> UpdateBuilder.RowOf(entity, items[k]) == Ok(rows[k])
  {
    var init: seq<Fields> := [];
    RowsFold(entity, init, items);
    if FoldResult(UpdateBuilder.RowsStep(entity), init, items).Ok? {
      var rows := FoldResult(UpdateBuilder.RowsStep(entity), init, items).value;
      forall k | 0 <= k < |items|
        ensures UpdateBuilder.RowOf(entity, items[k]) == Ok(rows[k])
      {
        assert rows[k] == rows[|init| + k];
      }
    }
  }

  /** The head of an update: the rows of its data items and the filter, nothing staged. */
  lemma UpdateHeadShape(entity: Entity, args: Value, buildWhere: WhereFn)
    ensures UpdateBuilder.HeadOf(entity, args, buildWhere).Ok? ==>
      var p := UpdateBuilder.HeadOf(entity, args, buildWhere).value;
      var items := Iterate(Prop(args, "data")).value;
      args.Obj?
      && p.entity == Some(entity) && p.pks == PrimaryColumns(entity.columns) && p.assignments == []
      && |p.rows| == |items|
      && (forall k :: 0 <= k < |items| ==> UpdateBuilder.RowOf(entity, items[k]) == Ok(p.rows[k]))
      && (!Truthy(Prop(args, "where")) ==> p.params == [] && p.where == [])
      && p.tempTable.None? && p.returning.None?
  {
    if UpdateBuilder.HeadOf(entity, args, buildWhere).Ok? {
      HeadOnlyObjects(entity, args, buildWhere);
      var items := Iterate(Prop(args, "data")).value;
      ItemRows(entity, items);
      var rows := FoldResult(UpdateBuilder.RowsStep(entity), [], items).value;
      var where := Prop(args, "where");
      var w := if Truthy(where) then buildWhere(where, entity, Filters([], [])) else Run(Filters([], []), None);
      assert UpdateBuilder.HeadOf(entity, args, buildWhere).value ==
        EmptyUpdate.(params := w.state.params, where := w.state.where, entity := Some(entity),
                     pks := PrimaryColumns(entity.columns), rows := rows);
    }
  }

  /** The read-back part: staged and joined exactly when a projection is asked for. */
  lemma UpdateReturningShape(p: UpdatePlan, entity: Entity, args: Value)
    requires args.Obj? && p.tempTable.None? && p.returning.None?
    ensures UpdateBuilder.ReturningOf(p, entity, args).Ok? ==>
      var r := UpdateBuilder.ReturningOf(p, entity, args).value;
      r == p.(tempTable := r.tempTable, returning := r.returning)
      && (r.tempTable.Some? <==> r.returning.Some?)
      && (r.tempTable.Some? ==> r.tempTable == Some(OutputData))
      && (r.returning.Some? <==> "select" in Keys(args.fields) || "include" in Keys(args.fields))
      && (r.returning.Some? ==>
            var q := BuildPlan(entity, Projection(args)).value;
            r.returning.value == q.(joins := [UpdateBuilder.SourceJoin(p.pks, Some("root"))] + q.joins))
  {
    if UpdateBuilder.ReturningOf(p, entity, args).Ok? && HasProjection(args).value {
      BuildShape(entity, Projection(args));
      assert BuildPlan(entity, Projection(args)).value.from.value.alias == Some("root");
    }
  }

  /** The read-back join compares `sourceData.<column>` with `root.<column>` for every
      primary key column, in order, and nothing else. */
  lemma SourceJoinShape(pks: seq<Column>)
    ensures var j := UpdateBuilder.SourceJoin(pks, Some("root"));
      j.joinType == InnerJoin && j.from == TemporalAccess("@outputData", Some("sourceData"))
      && |j.conditions| == |pks|
      && forall k :: 0 <= k < |pks| ==>
           j.conditions[k] == Cond(ColumnSide(Some("sourceData"), pks[k].columnName), "=",
                                   Single(ColumnSide(Some("root"), pks[k].columnName)))
  {
  }

  // ---------------------------------------------------------------- delete plan

  /** `build` of a delete: the entity is set and `pks` stay empty. A staging table and a
      read-back plan are set together, exactly when the arguments carry a `select` or
      `include` key; the read-back plan is the find plan of that projection reading
      from `@outputData` under its own alias `root`, its joins untouched. */
  lemma DeleteBuildShape(entity: Entity, args: Value, buildWhere: WhereFn)
    ensures DeleteBuilder.DeletePlanOf(entity, args, buildWhere).Ok? && args.Obj? ==>
      var p := DeleteBuilder.DeletePlanOf(entity, args, buildWhere).value;
      p.entity == Some(entity) && p.pks == []
      && (!Truthy(Prop(args, "where")) ==> p.params == [] && p.where == [])
      && (p.tempTable.Some? <==> p.returning.Some?)
      && (p.tempTable.Some? ==> p.tempTable == Some(OutputData))
      && (p.returning.Some? <==> "select" in Keys(args.fields) || "include" in Keys(args.fields))
      && (p.returning.Some? ==>
            var q := BuildPlan(entity, Projection(args)).value;
            p.returning.value == q.(from := Some(TemporalAccess("@outputData", Some("root"))))
            && p.returning.value.joins == q.joins)
  {
    if DeleteBuilder.DeletePlanOf(entity, args, buildWhere).Ok? && args.Obj? {
      BuildShape(entity, Projection(args));
    }
  }

  /** Nothing stops primitive arguments before the projection test of a delete, and
      the `in` operator throws on them. */
  lemma DeleteProjectionOnObjects(entity: Entity, args: Value, buildWhere: WhereFn)
    ensures DeleteBuilder.HeadOf(entity, args, buildWhere).Ok? && (args.Bool? || args.Num? || args.Str?) ==>
      DeleteBuilder.DeletePlanOf(entity, args, buildWhere).Err?
      && DeleteBuilder.DeletePlanOf(entity, args, buildWhere).error.TypeError?
  {
  }

  // ---------------------------------------------------------------- create plan

  /** A create row accepts columns and relations and throws for anything else. */
  lemma CreateRowFold(entity: Entity, init: Fields, entries: Fields)
    ensures FoldResult(CreateBuilder.RowStep(entity), init, entries).Ok? <==>
      forall i :: 0 <= i < |entries| ==>
        FindColumn(entity.columns, entries[i].0).Some? || FindRelation(entity.relations, entries[i].0).Some?
  {
    var ok := (e: (string, Value)) => FindColumn(entity.columns, e.0).Some? || FindRelation(entity.relations, e.0).Some?;
    FoldResultOkIff(CreateBuilder.RowStep(entity), init, entries, ok);
  }

  lemma CheckFold(entity: Entity, items: seq<Value>)
    ensures FoldResult(CreateBuilder.CheckStep(entity), (), items).Ok? <==>
      forall k :: 0 <= k < |items| ==> CreateBuilder.RowOf(entity, items[k]).Ok?
  {
    var ok := (item: Value) => CreateBuilder.RowOf(entity, item).Ok?;
    FoldResultOkIff(CreateBuilder.CheckStep(entity), (), items, ok);
  }

  /** `build` of a create: it succeeds exactly when the data is iterable and every
      property of every data object names a column or a relation; `pks` are then the
      primary columns and no row is kept. */
  lemma CreateBuildShape(entity: Entity, args: Value)
    ensures CreateBuilder.CreatePlanOf(entity, args).Ok? <==>
      Get(args, "data").Ok? && Iterate(Get(args, "data").value).Ok?
      && var items := Iterate(Get(args, "data").value).value;
         forall k, i :: 0 <= k < |items| && 0 <= i < |Entries(items[k])| ==>
           FindColumn(entity.columns, Entries(items[k])[i].0).Some?
           || FindRelation(entity.relations, Entries(items[k])[i].0).Some?
    ensures CreateBuilder.CreatePlanOf(entity, args).Ok? ==>
      CreateBuilder.CreatePlanOf(entity, args).value == CreatePlan(PrimaryColumns(entity.columns), [])
  {
    if Get(args, "data").Ok? && Iterate(Get(args, "data").value).Ok? {
      var items := Iterate(Get(args, "data").value).value;
      CheckFold(entity, items);
      forall k | 0 <= k < |items|
        ensures CreateBuilder.RowOf(entity, items[k]).Ok? <==>
          forall i :: 0 <= i < |Entries(items[k])| ==>
            FindColumn(entity.columns, Entries(items[k])[i].0).Some?
            || FindRelation(entity.relations, Entries(items[k])[i].0).Some?
      {
        CreateRowFold(entity, [], Entries(items[k]));
      }
    }
  }
}
