/** What `CriteriaBuilder.build` (`criteria-builder.ts`) promises: the sort column's fallbacks, the paging rule, the
    root context's table, ordering and links, the temporary table written exactly when
    there are children, the many-to-one join, and what happens to the contexts nested
    many-to-one relations build. */
module CriteriaBuildProps {
  import opened Js
  import opened Schema
  import opened LegacySchema
  import opened CriteriaBuilder
  import opened CriteriaBuild

  /** The sort column is the first column a truthy `sortField` names, else the first
      `pk` column, else the first column; only an entity without columns has none. */
  lemma SortFallback(entity: SqlEntity, args: Value)
    requires !Nullish(args)
    ensures var r := SortField(entity, args);
            var named := Prop(args, "sortField");
            var matched := Truthy(named) && exists c :: c in entity.columns && named == Str(c.info.name);
            var keyed := exists c :: c in entity.columns && HasPk(c.info);
            (r.None? <==> entity.columns == [])
            && (r.Some? ==> r.value in entity.columns)
            && (matched ==> named == Str(r.value.info.name))
            && (!matched && keyed ==> HasPk(r.value.info))
            && (!matched && !keyed && entity.columns != [] ==> r.value == entity.columns[0])
            && (matched ==> exists i :: 0 <= i < |entity.columns| && entity.columns[i] == r.value
                                        && forall j :: 0 <= j < i ==> named != Str(entity.columns[j].info.name))
            && (!matched && keyed ==> exists i :: 0 <= i < |entity.columns| && entity.columns[i] == r.value
                                                 && forall j :: 0 <= j < i ==> !HasPk(entity.columns[j].info))
  {
    if Truthy(Prop(args, "sortField")) {
      ColumnMatchingFirst(entity.columns, Prop(args, "sortField"));
    }
    PrimaryColumnFirst(entity.columns);
  }

  /** `limit` alone is a `TOP`; `limit` and `offset` together are an offset and a fetch;
      `offset` alone does nothing; `in` on a primitive throws. Nothing else changes. */
  lemma PagingRule(ctx: QueryContext, args: Value)
    requires !Nullish(args)
    ensures var r := Paging(ctx, args);
            var limit := Has(args, "limit") == Ok(true);
            var offset := Has(args, "offset") == Ok(true);
            (r.Err? <==> args.Bool? || args.Num? || args.Str?)
            && (r.Ok? ==>
                  r.value.top == (if limit && !offset then Prop(args, "limit") else ctx.top)
                  && r.value.offset == (if limit && offset then Prop(args, "offset") else ctx.offset)
                  && r.value.fetch == (if limit && offset then Prop(args, "limit") else ctx.fetch)
                  && r.value.(top := ctx.top, offset := ctx.offset, fetch := ctx.fetch) == ctx)
  {
  }

  /** The head's parts: the looked-up entity's table, the sort column's ordering, the
      joins and parent column of their own functions, the selected columns followed by
      the parent link column, and no conditions yet. */
  lemma HeadParts(entities: seq<SqlEntity>, projection: Projection, parent: Option<ParentLink>, parentVariableTable: Option<string>)
    requires projection.Expand?
    ensures var r := HeadOf(entities, projection, parent, parentVariableTable);
            r.Ok? ==>
              var e := r.value.entity;
              var args := r.value.args;
              var ctx := r.value.ctx;
              e == (if parent.Some? then EntityOfModel(entities, parent.value.relation.dest.model) else EntityNamed(entities, projection.name)).value
              && args == (if Nullish(projection.args) then Obj([]) else projection.args)
              && ctx.from == TableNameAccess(e, "root")
              && SortField(e, args).Some? && ctx.orderBy == OrderByText(SortField(e, args).value, args)
              && ctx.params == [] && ctx.wheres == [] && ctx.into.None?
              && ParentJoins(e, parent, parentVariableTable) == Ok(ctx.joins)
              && ParentColumn(entities, parent) == Ok(r.value.parentColumn)
              && SelectedColumns(e.columns, projection.fields).Ok?
              && ctx.columns == RootColumns(SelectedColumns(e.columns, projection.fields).value) + OwnParentColumns(parent)
  {
    var r := HeadOf(entities, projection, parent, parentVariableTable);
    if r.Ok? {
      var args := if Nullish(projection.args) then Obj([]) else projection.args;
      var e := (if parent.Some? then EntityOfModel(entities, parent.value.relation.dest.model) else EntityNamed(entities, projection.name)).value;
      var columns := SelectedColumns(e.columns, projection.fields).value;
      var parentColumn := ParentColumn(entities, parent).value;
      var joins := ParentJoins(e, parent, parentVariableTable).value;
      var sortField := SortField(e, args).value;
      var ctx := QueryContext([], None, TableNameAccess(e, "root"), RootColumns(columns), joins, [],
                              OrderByText(sortField, args), Undefined, Undefined, Undefined);
      var paged := Paging(ctx, args).value;
      PagingRule(ctx, args);
      assert paged.columns == ctx.columns && paged.orderBy == ctx.orderBy && paged.joins == ctx.joins;
      assert r.value == Head(parentColumn, paged.(columns := paged.columns + OwnParentColumns(parent)), e, args);
    }
  }

  /** The head of `build`: the entity's table under the alias `root`, ordered by the
      sort column (descending only for `'DESC'`), with no conditions yet; a root with
      a table variable joins it on every primary key, and a plain root joins nothing. */
  lemma HeadShape(entities: seq<SqlEntity>, projection: Projection, parent: Option<ParentLink>, parentVariableTable: Option<string>)
    requires projection.Expand?
    ensures var r := HeadOf(entities, projection, parent, parentVariableTable);
            r.Ok? ==>
              var e := r.value.entity;
              var args := r.value.args;
              var ctx := r.value.ctx;
              ctx.from == TableNameAccess(e, "root")
              && SortField(e, args).Some?
              && ctx.orderBy == "[root].[" + SortField(e, args).value.name + "] " + (if Prop(args, "sortOrder") == Str("DESC") then "DESC" else "ASC")
              && ctx.params == [] && ctx.wheres == []
              && (parent.None? && !Present(parentVariableTable) ==> ctx.joins == [])
              && (parent.None? && Present(parentVariableTable) ==>
                    ctx.joins == ["INNER JOIN @" + parentVariableTable.value + " [parent] on " + Join(PkConditions(PkColumns(e.columns)), " AND ")])
  {
    HeadParts(entities, projection, parent, parentVariableTable);
  }

  lemma ParentJoinLink(entity: SqlEntity, link: ParentLink)
    ensures var r := ParentJoins(entity, Some(link), None);
            r.Ok? ==> |r.value| == 1
                      && StartsWith(r.value[0], "INNER JOIN #" + link.tempTable + " [parent] on [parent].[" + LinkKey(link) + "] = [root].[")
  {
    var r := ParentJoins(entity, Some(link), None);
    if r.Ok? {
      var destField := ColumnOfField(entity.columns, link.relation.dest.field.name).value;
      var p := "INNER JOIN #" + link.tempTable + " [parent] on [parent].[" + LinkKey(link) + "] = [root].[";
      assert r.value == [p + destField.name + "]"];
      assert (p + destField.name + "]")[..|p|] == p;
    }
  }

  lemma ParentColumnLink(entities: seq<SqlEntity>, link: ParentLink)
    ensures var r := ParentColumn(entities, Some(link));
            r.Ok? ==> r.value.Some? && EndsWith(r.value.value, " AS [" + LinkKey(link) + "]")
  {
    var r := ParentColumn(entities, Some(link));
    if r.Ok? {
      var sourceEntity := EntityNamed(entities, link.relation.source.model.name).value;
      var sourceColumn := ColumnOfField(sourceEntity.columns, link.relation.source.field.name).value;
      var reader := if |link.navigationPath| > 0 then "[" + link.navigationPath + "]" else "[root]";
      var suffix := " AS [" + LinkKey(link) + "]";
      assert r.value.value == reader + ".[" + sourceColumn.name + "]" + suffix;
      EndsWithSelf(reader + ".[" + sourceColumn.name + "]", suffix);
    }
  }

  lemma OwnParentColumnLink(link: ParentLink)
    ensures |OwnParentColumns(Some(link))| == 1
    ensures StartsWith(OwnParentColumns(Some(link))[0], "[parent].[" + LinkKey(link) + "] AS [__parent")
  {
    var q := "[parent].[" + LinkKey(link) + "] AS [__parent";
    var path := if |link.navigationPath| > 0 then "__" + link.navigationPath else "";
    var own := q + path + "__" + link.relation.source.field.name + "]";
    assert OwnParentColumns(Some(link)) == [own];
    assert own[..|q|] == q;
  }

  /** A child's link to its parent: the parent exposes the source column under the link
      key, the child joins the parent's temporary table on that key and selects it back
      as its last column so far. */
  lemma HeadLink(entities: seq<SqlEntity>, projection: Projection, link: ParentLink)
    requires projection.Expand?
    ensures var r := HeadOf(entities, projection, Some(link), None);
            r.Ok? ==>
              var ctx := r.value.ctx;
              |ctx.joins| == 1
              && StartsWith(ctx.joins[0], "INNER JOIN #" + link.tempTable + " [parent] on [parent].[" + LinkKey(link) + "] = [root].[")
              && r.value.parentColumn.Some?
              && EndsWith(r.value.parentColumn.value, " AS [" + LinkKey(link) + "]")
              && |ctx.columns| > 0
              && StartsWith(ctx.columns[|ctx.columns| - 1], "[parent].[" + LinkKey(link) + "] AS [__parent")
  {
    var r := HeadOf(entities, projection, Some(link), None);
    HeadParts(entities, projection, Some(link), None);
    if r.Ok? {
      ParentJoinLink(r.value.entity, link);
      ParentColumnLink(entities, link);
      OwnParentColumnLink(link);
    }
  }

  /** The root context comes first: its table, ordering and paging are the head's, its
      columns and joins start with the head's, and it is written into the temporary
      table exactly when other contexts follow it. A child hands its parent the head's
      link column. */
  lemma BuildRoot(entities: seq<SqlEntity>, projection: Projection, parent: Option<ParentLink>,
                  parentVariableTable: Option<string>, keepNested: bool)
    requires projection.Expand?
    ensures var r := BuildOf(entities, projection, parent, parentVariableTable, keepNested);
            var head := HeadOf(entities, projection, parent, parentVariableTable);
            r.Ok? ==>
              head.Ok?
              && var root := r.value.contexts[0];
              root.from == head.value.ctx.from && root.orderBy == head.value.ctx.orderBy
              && root.top == head.value.ctx.top && root.offset == head.value.ctx.offset && root.fetch == head.value.ctx.fetch
              && head.value.ctx.columns <= root.columns && head.value.ctx.joins <= root.joins
              && (root.into.Some? <==> |r.value.contexts| > 1)
              && (root.into.Some? ==> root.into.value == PossibleInto(parent))
              && r.value.parentColumn == head.value.parentColumn
  {
    var r := BuildOf(entities, projection, parent, parentVariableTable, keepNested);
    if r.Ok? {
      var head := HeadOf(entities, projection, parent, parentVariableTable).value;
      var possibleInto := PossibleInto(parent);
      var filtered := WhereOf(entities, head.ctx, "root", head.entity, Prop(head.args, "where"), None).value;
      var m2o := ManyToOneLoop(entities, projection, RelationsSelected(head.entity.manyToOnes, projection.fields), 0,
                               Step(filtered, []), "root", "", possibleInto, true, keepNested).value;
      var o2m := OneToManyLoop(entities, projection, RelationsSelected(head.entity.oneToManies, projection.fields), 0,
                               m2o, "", possibleInto, keepNested).value;
      assert r.value.contexts == [if |o2m.contexts| > 0 then o2m.ctx.(into := Some(possibleInto)) else o2m.ctx] + o2m.contexts;
    }
  }

  /** A many-to-one relation joins its table under the dotted alias (an inner join for
      a non-null relation, a left join otherwise) and selects its columns under that
      alias, right after what the context already had. */
  lemma ManyToOneShape(entities: seq<SqlEntity>, ctx: QueryContext, mapName: string, projection: Projection,
                       link: ParentLink, keepNested: bool)
    requires projection.Expand?
    ensures var r := ManyToOneOf(entities, ctx, mapName, projection, link, keepNested);
            var alias := (if |link.navigationPath| > 0 then link.navigationPath + "." else "") + link.relation.field.name;
            r.Ok? ==>
              EntityOfModel(entities, link.relation.dest.model).Some?
              && var dest := EntityOfModel(entities, link.relation.dest.model).value;
              SelectedColumns(dest.columns, projection.fields).Ok?
              && var own := AliasedColumns(alias, SelectedColumns(dest.columns, projection.fields).value);
              |r.value.ctx.joins| > |ctx.joins|
              && StartsWith(r.value.ctx.joins[|ctx.joins|], (if link.relation.nonNull then "INNER" else "LEFT") + " JOIN "
                                                            + TableNameAccess(dest, alias) + " ON [" + alias + "].[")
              && ctx.columns + own <= r.value.ctx.columns
  {
    var r := ManyToOneOf(entities, ctx, mapName, projection, link, keepNested);
    var alias := (if |link.navigationPath| > 0 then link.navigationPath + "." else "") + link.relation.field.name;
    var h := ManyToOneHead(entities, ctx, mapName, projection, link, alias);
    if r.Ok? {
      assert h.Ok? && Grows(Step(h.value.0, []), r.value);
      ManyToOneHeadShape(entities, ctx, mapName, projection, link, alias);
    }
  }

  /** The join and the columns the head of a many-to-one relation adds. */
  lemma ManyToOneHeadShape(entities: seq<SqlEntity>, ctx: QueryContext, mapName: string, projection: Projection,
                           link: ParentLink, alias: string)
    requires projection.Expand?
    ensures var r := ManyToOneHead(entities, ctx, mapName, projection, link, alias);
            r.Ok? ==>
              EntityOfModel(entities, link.relation.dest.model).Some?
              && var dest := EntityOfModel(entities, link.relation.dest.model).value;
              SelectedColumns(dest.columns, projection.fields).Ok?
              && r.value.0.columns == ctx.columns + AliasedColumns(alias, SelectedColumns(dest.columns, projection.fields).value)
              && |r.value.0.joins| == |ctx.joins| + 1
              && StartsWith(r.value.0.joins[|ctx.joins|], (if link.relation.nonNull then "INNER" else "LEFT") + " JOIN "
                                                         + TableNameAccess(dest, alias) + " ON [" + alias + "].[")
  {
    var r := ManyToOneHead(entities, ctx, mapName, projection, link, alias);
    if r.Ok? {
      var relation := link.relation;
      var dest := EntityOfModel(entities, relation.dest.model).value;
      var sourceColumn := ColumnOfField(EntityOfModel(entities, relation.source.model).value.columns, relation.source.field.name).value;
      var destColumn := ColumnOfField(dest.columns, relation.dest.field.name).value;
      var p := (if relation.nonNull then "INNER" else "LEFT") + " JOIN " + TableNameAccess(dest, alias) + " ON [" + alias + "].[";
      var join := p + destColumn.name + "] = [" + mapName + "].[" + sourceColumn.name + "]";
      assert r.value.0.joins == ctx.joins + [join];
      assert join[..|p|] == p;
    }
  }

  // ---------------------------------------------------------------- nested many-to-one contexts

  /** As written: a loop that does not collect returns the contexts it was given, and
      the context it threads does not depend on collecting. */
  lemma {:induction false} NestedContextsDropped(entities: seq<SqlEntity>, projection: Projection, rels: seq<(SqlRelation, Projection)>,
                                                 k: nat, ctx: QueryContext, dropped: seq<QueryContext>, kept: seq<QueryContext>,
                                                 mapName: string, navigationPath: string, tempTable: string, keepNested: bool)
    requires projection.Expand? && k <= |rels| && forall x :: x in rels ==> x.1 in projection.fields && x.1.Expand?
    ensures var a := ManyToOneLoop(entities, projection, rels, k, Step(ctx, dropped), mapName, navigationPath, tempTable, false, keepNested);
            var b := ManyToOneLoop(entities, projection, rels, k, Step(ctx, kept), mapName, navigationPath, tempTable, true, keepNested);
            (a.Ok? <==> b.Ok?) && (a.Ok? ==> a.value.contexts == dropped && a.value.ctx == b.value.ctx)
    decreases |rels| - k
  {
    if k < |rels| {
      var nested := ManyToOneOf(entities, ctx, mapName, rels[k].1, ParentLink(navigationPath, tempTable, rels[k].0), keepNested);
      if nested.Ok? {
        NestedContextsDropped(entities, projection, rels, k + 1, nested.value.ctx, dropped, kept + nested.value.contexts,
                              mapName, navigationPath, tempTable, keepNested);
      }
    }
  }

  /** Corrected: a collecting loop returns every context the nested relation builds,
      right after the ones it was given. */
  lemma NestedContextsKept(entities: seq<SqlEntity>, projection: Projection, rels: seq<(SqlRelation, Projection)>,
                           k: nat, acc: Step, mapName: string, navigationPath: string, tempTable: string, keepNested: bool)
    requires projection.Expand? && k < |rels| && forall x :: x in rels ==> x.1 in projection.fields && x.1.Expand?
    ensures var r := ManyToOneLoop(entities, projection, rels, k, acc, mapName, navigationPath, tempTable, true, keepNested);
            var nested := ManyToOneOf(entities, acc.ctx, mapName, rels[k].1, ParentLink(navigationPath, tempTable, rels[k].0), keepNested);
            r.Ok? ==> nested.Ok? && acc.contexts + nested.value.contexts <= r.value.contexts
  {
  }

  /** The two disagree exactly when a nested relation builds a context: as written it
      is lost, corrected it is returned. */
  lemma NestedContextWitness(entities: seq<SqlEntity>, projection: Projection, rels: seq<(SqlRelation, Projection)>,
                             k: nat, acc: Step, mapName: string, navigationPath: string, tempTable: string, keepNested: bool)
    requires projection.Expand? && k < |rels| && forall x :: x in rels ==> x.1 in projection.fields && x.1.Expand?
    requires var nested := ManyToOneOf(entities, acc.ctx, mapName, rels[k].1, ParentLink(navigationPath, tempTable, rels[k].0), keepNested);
             nested.Ok? && nested.value.contexts != []
    requires ManyToOneLoop(entities, projection, rels, k, acc, mapName, navigationPath, tempTable, true, keepNested).Ok?
    ensures var asWritten := ManyToOneLoop(entities, projection, rels, k, acc, mapName, navigationPath, tempTable, false, keepNested);
            var corrected := ManyToOneLoop(entities, projection, rels, k, acc, mapName, navigationPath, tempTable, true, keepNested);
            asWritten.Ok? && |asWritten.value.contexts| < |corrected.value.contexts|
  {
    NestedContextsDropped(entities, projection, rels, k, acc.ctx, acc.contexts, acc.contexts, mapName, navigationPath, tempTable, keepNested);
    NestedContextsKept(entities, projection, rels, k, acc, mapName, navigationPath, tempTable, keepNested);
  }

  // ---------------------------------------------------------------- one-to-many children

  /** Each one-to-many child from relation `k` on, built on its own with its parent link:
      their contexts one after the other and their parent columns, in relation order; the
      first child that fails decides the error. */
  function ChildrenFrom(entities: seq<SqlEntity>, projection: Projection, rels: seq<(SqlRelation, Projection)>, k: nat,
                        navigationPath: string, tempTable: string, keepNested: bool): (r: Result<(seq<QueryContext>, seq<string>)>)
    requires projection.Expand? && k <= |rels| && forall x :: x in rels ==> x.1 in projection.fields && x.1.Expand?
    ensures r.Ok? ==> |r.value.1| == |rels| - k
    decreases |rels| - k
  {
    if k == |rels| then Ok(([], []))
    else
      var child :- BuildOf(entities, rels[k].1, Some(ParentLink(navigationPath, tempTable, rels[k].0)), None, keepNested);
      var rest :- ChildrenFrom(entities, projection, rels, k + 1, navigationPath, tempTable, keepNested);
      Ok((child.contexts + rest.0, [child.parentColumn.value] + rest.1))
  }

  /** How the loop and the children relate at one relation: the loop's result from
      `acc` against the children's result. */
  predicate Agrees(acc: Step, r: Result<Step>, c: Result<(seq<QueryContext>, seq<string>)>)
  {
    (r.Ok? <==> c.Ok?)
    && (r.Ok? ==> r.value.contexts == acc.contexts + c.value.0
                  && r.value.ctx == acc.ctx.(columns := acc.ctx.columns + c.value.1))
    && (r.Err? ==> r.error == c.error)
  }

  /** A child that fails ends both the loop and the children with its error. */
  lemma ChildFails(entities: seq<SqlEntity>, projection: Projection, rels: seq<(SqlRelation, Projection)>,
                   k: nat, acc: Step, navigationPath: string, tempTable: string, keepNested: bool)
    requires projection.Expand? && k < |rels| && forall x :: x in rels ==> x.1 in projection.fields && x.1.Expand?
    requires BuildOf(entities, rels[k].1, Some(ParentLink(navigationPath, tempTable, rels[k].0)), None, keepNested).Err?
    ensures Agrees(acc, OneToManyLoop(entities, projection, rels, k, acc, navigationPath, tempTable, keepNested),
                   ChildrenFrom(entities, projection, rels, k, navigationPath, tempTable, keepNested))
  {
  }

  /** One step of the loop: the child of relation `k`, then the rest of the loop. */
  lemma LoopStep(entities: seq<SqlEntity>, projection: Projection, rels: seq<(SqlRelation, Projection)>,
                 k: nat, acc: Step, navigationPath: string, tempTable: string, keepNested: bool)
    requires projection.Expand? && k < |rels| && forall x :: x in rels ==> x.1 in projection.fields && x.1.Expand?
    requires BuildOf(entities, rels[k].1, Some(ParentLink(navigationPath, tempTable, rels[k].0)), None, keepNested).Ok?
    ensures var child := BuildOf(entities, rels[k].1, Some(ParentLink(navigationPath, tempTable, rels[k].0)), None, keepNested).value;
            OneToManyLoop(entities, projection, rels, k, acc, navigationPath, tempTable, keepNested)
            == OneToManyLoop(entities, projection, rels, k + 1,
                             Step(acc.ctx.(columns := acc.ctx.columns + [child.parentColumn.value]), acc.contexts + child.contexts),
                             navigationPath, tempTable, keepNested)
  {
  }

  /** One step of the children: the child of relation `k`, then the rest. */
  lemma ChildrenStep(entities: seq<SqlEntity>, projection: Projection, rels: seq<(SqlRelation, Projection)>,
                     k: nat, navigationPath: string, tempTable: string, keepNested: bool)
    requires projection.Expand? && k < |rels| && forall x :: x in rels ==> x.1 in projection.fields && x.1.Expand?
    requires BuildOf(entities, rels[k].1, Some(ParentLink(navigationPath, tempTable, rels[k].0)), None, keepNested).Ok?
    ensures var child := BuildOf(entities, rels[k].1, Some(ParentLink(navigationPath, tempTable, rels[k].0)), None, keepNested).value;
            var rest := ChildrenFrom(entities, projection, rels, k + 1, navigationPath, tempTable, keepNested);
            ChildrenFrom(entities, projection, rels, k, navigationPath, tempTable, keepNested)
            == if rest.Ok? then Ok((child.contexts + rest.value.0, [child.parentColumn.value] + rest.value.1)) else Err(rest.error)
  {
  }

  /** Pushing one child keeps the loop and the children in step. */
  lemma PushAgrees(acc: Step, column: string, contexts: seq<QueryContext>,
                   r: Result<Step>, rest: Result<(seq<QueryContext>, seq<string>)>)
    requires Agrees(Step(acc.ctx.(columns := acc.ctx.columns + [column]), acc.contexts + contexts), r, rest)
    ensures Agrees(acc, r, if rest.Ok? then Ok((contexts + rest.value.0, [column] + rest.value.1)) else Err(rest.error))
  {
    if rest.Ok? {
      assert acc.contexts + contexts + rest.value.0 == acc.contexts + (contexts + rest.value.0);
      assert acc.ctx.columns + [column] + rest.value.1 == acc.ctx.columns + ([column] + rest.value.1);
    }
  }

  /** The one-to-many loop succeeds exactly when every child builds, and then returns
      the contexts it was given followed by every child's contexts in relation order,
      with each child's parent column pushed onto the context's columns; otherwise it
      fails with the first failing child's error. */
  lemma {:induction false} OneToManyChildren(entities: seq<SqlEntity>, projection: Projection, rels: seq<(SqlRelation, Projection)>,
                                             k: nat, acc: Step, navigationPath: string, tempTable: string, keepNested: bool)
    requires projection.Expand? && k <= |rels| && forall x :: x in rels ==> x.1 in projection.fields && x.1.Expand?
    ensures var r := OneToManyLoop(entities, projection, rels, k, acc, navigationPath, tempTable, keepNested);
            var c := ChildrenFrom(entities, projection, rels, k, navigationPath, tempTable, keepNested);
            (r.Ok? <==> c.Ok?)
            && (r.Ok? ==> r.value.contexts == acc.contexts + c.value.0
                          && r.value.ctx == acc.ctx.(columns := acc.ctx.columns + c.value.1))
            && (r.Err? ==> r.error == c.error)
    decreases |rels| - k
  {
    if k < |rels| {
      var child := BuildOf(entities, rels[k].1, Some(ParentLink(navigationPath, tempTable, rels[k].0)), None, keepNested);
      if child.Err? {
        ChildFails(entities, projection, rels, k, acc, navigationPath, tempTable, keepNested);
      } else {
        OneToManyChildren(entities, projection, rels, k + 1,
                          Step(acc.ctx.(columns := acc.ctx.columns + [child.value.parentColumn.value]), acc.contexts + child.value.contexts),
                          navigationPath, tempTable, keepNested);
        LoopStep(entities, projection, rels, k, acc, navigationPath, tempTable, keepNested);
        ChildrenStep(entities, projection, rels, k, navigationPath, tempTable, keepNested);
        PushAgrees(acc, child.value.parentColumn.value, child.value.contexts,
                   OneToManyLoop(entities, projection, rels, k + 1,
                                 Step(acc.ctx.(columns := acc.ctx.columns + [child.value.parentColumn.value]), acc.contexts + child.value.contexts),
                                 navigationPath, tempTable, keepNested),
                   ChildrenFrom(entities, projection, rels, k + 1, navigationPath, tempTable, keepNested));
      }
    }
  }
}
