/** `CriteriaBuilder.build`: a projection becomes a list of query contexts, the root's
    first. Many-to-one relations join into the context that selects them; each
    one-to-many relation gets contexts of its own, linked to its parent through a
    temporary table and a column it pushes into the parent's context.

    `keepNested` picks between the code as written (`false`: the contexts a nested
    many-to-one relation builds are dropped) and the evidently intended code (`true`:
    they are returned like every other child's). */
module CriteriaBuild {
  import opened Js
  import opened Schema
  import opened LegacySchema
  import opened CriteriaBuilder

  /** `QueryParentContext` without the parent's context object: the column a child
      pushes into it is handed back to the caller instead. */
  datatype ParentLink = ParentLink(navigationPath: string, tempTable: string, relation: SqlRelation)

  /** What `build` leaves behind: the column it pushed into its parent's context, when
      it has a parent, and the contexts it returns. */
  datatype Built = Built(parentColumn: Option<string>, contexts: seq<QueryContext>)

  /** The state of a relation loop: the context relations push into, and the contexts
      collected so far. */
  datatype Step = Step(ctx: QueryContext, contexts: seq<QueryContext>)

  /** The part of `build` before its loops: the entity, its context and the column for
      the parent. */
  datatype Head = Head(parentColumn: Option<string>, ctx: QueryContext, entity: SqlEntity, args: Value)

  /** A relation loop only appends: columns and joins after the ones it found, and
      contexts after the ones collected; the table, conditions, ordering and paging stay. */
  predicate Grows(before: Step, after: Step)
  {
    after.ctx.into == before.ctx.into && after.ctx.from == before.ctx.from
    && after.ctx.params == before.ctx.params && after.ctx.wheres == before.ctx.wheres
    && after.ctx.orderBy == before.ctx.orderBy && after.ctx.top == before.ctx.top
    && after.ctx.offset == before.ctx.offset && after.ctx.fetch == before.ctx.fetch
    && before.ctx.columns <= after.ctx.columns && before.ctx.joins <= after.ctx.joins
    && before.contexts <= after.contexts
  }

  // ---------------------------------------------------------------- selections

  /** The names of a projection's plain fields, in field order. */
  function PlainNames(fields: seq<Projection>): (r: seq<string>)
    ensures |r| <= |fields|
    ensures forall n :: n in r <==> FieldItem(n) in fields
  {
    if fields == [] then []
    else (if fields[0].FieldItem? then [fields[0].name] else []) + PlainNames(fields[1..])
  }

  /** `getColumnsSelected`: the column of each plain field; a field with no column is
      `undefined` and crashes when its name is read. */
  function SelectedColumns(columns: seq<SqlColumn>, fields: seq<Projection>): (r: Result<seq<SqlColumn>>)
    ensures r.Ok? ==> forall c :: c in r.value ==> c in columns
    ensures r.Ok? <==> forall n :: n in PlainNames(fields) ==> ColumnOfField(columns, n).Some?
    ensures r.Err? ==> r.error == UndefinedRead
    ensures r.Ok? ==> |r.value| == |PlainNames(fields)|
                      && forall k :: 0 <= k < |r.value| ==> ColumnOfField(columns, PlainNames(fields)[k]) == Some(r.value[k])
  {
    if fields == [] then Ok([])
    else
      assert PlainNames(fields) == (if fields[0].FieldItem? then [fields[0].name] else []) + PlainNames(fields[1..]);
      var rest :- SelectedColumns(columns, fields[1..]);
      match fields[0]
      case FieldItem(name) =>
        var column := ColumnOfField(columns, name);
        if column.None? then Err(UndefinedRead) else Ok([column.value] + rest)
      case Expand(_, _, _) => Ok(rest)
  }

  /** The expansions of a projection that name one of `relations`, in field order. */
  function RelatedExpansions(relations: seq<SqlRelation>, fields: seq<Projection>): (r: seq<Projection>)
    ensures |r| <= |fields|
    ensures forall x :: x in r <==> x in fields && x.Expand? && RelationOfField(relations, x.name).Some?
  {
    if fields == [] then []
    else
      (if fields[0].Expand? && RelationOfField(relations, fields[0].name).Some? then [fields[0]] else [])
      + RelatedExpansions(relations, fields[1..])
  }

  /** `getManyToOneRelationsSelected` / `getOneToManyRelationsSelected`: each expansion
      paired with the relation of its name, when there is one. */
  function RelationsSelected(relations: seq<SqlRelation>, fields: seq<Projection>): (r: seq<(SqlRelation, Projection)>)
    ensures forall x :: x in r ==> x.1 in fields && x.1.Expand? && x.0 in relations && x.0.field.name == x.1.name
    ensures |r| == |RelatedExpansions(relations, fields)|
  {
    if fields == [] then []
    else
      var rest := RelationsSelected(relations, fields[1..]);
      var relation := RelationOfField(relations, fields[0].name);
      if fields[0].Expand? && relation.Some? then [(relation.value, fields[0])] + rest
      else rest
  }

  /** The pairs follow the expansions that name a relation, one each, in field order,
      each paired with the relation `.find` returns for its name. */
  lemma {:induction false} RelationsSelectedOrder(relations: seq<SqlRelation>, fields: seq<Projection>)
    ensures var r, e := RelationsSelected(relations, fields), RelatedExpansions(relations, fields);
            |r| == |e| && forall k :: 0 <= k < |r| ==> r[k].1 == e[k] && RelationOfField(relations, e[k].name) == Some(r[k].0)
  {
    if fields != [] {
      RelationsSelectedOrder(relations, fields[1..]);
      var r, e := RelationsSelected(relations, fields), RelatedExpansions(relations, fields);
      var r', e' := RelationsSelected(relations, fields[1..]), RelatedExpansions(relations, fields[1..]);
      var relation := RelationOfField(relations, fields[0].name);
      if fields[0].Expand? && relation.Some? {
        assert r == [(relation.value, fields[0])] + r' && e == [fields[0]] + e';
        forall k | 0 <= k < |r|
          ensures r[k].1 == e[k] && RelationOfField(relations, e[k].name) == Some(r[k].0)
        {
          if k > 0 { assert r[k] == r'[k - 1] && e[k] == e'[k - 1]; }
        }
      } else {
        assert r == r' && e == e';
      }
    }
  }

  /** Every expansion that names a relation yields its pair. */
  lemma RelationsSelectedCovers(relations: seq<SqlRelation>, fields: seq<Projection>)
    ensures forall i :: 0 <= i < |fields| && fields[i].Expand? && RelationOfField(relations, fields[i].name).Some? ==>
              (RelationOfField(relations, fields[i].name).value, fields[i]) in RelationsSelected(relations, fields)
  {
    RelationsSelectedOrder(relations, fields);
    var r, e := RelationsSelected(relations, fields), RelatedExpansions(relations, fields);
    forall i | 0 <= i < |fields| && fields[i].Expand? && RelationOfField(relations, fields[i].name).Some?
      ensures (RelationOfField(relations, fields[i].name).value, fields[i]) in r
    {
      assert fields[i] in e;
      var k :| 0 <= k < |e| && e[k] == fields[i];
      assert r[k] == (RelationOfField(relations, fields[i].name).value, fields[i]);
    }
  }

  /** A field some directive marks `pk`. */
  predicate HasPk(field: Field)
  {
    exists d :: d in field.directives && d.name == "pk"
  }

  /** The first column marked `pk`. */
  function PrimaryColumn(columns: seq<SqlColumn>): (r: Option<SqlColumn>)
    ensures r.Some? ==> r.value in columns && HasPk(r.value.info)
    ensures r.None? <==> forall c :: c in columns ==> !HasPk(c.info)
  {
    if columns == [] then None
    else if HasPk(columns[0].info) then Some(columns[0])
    else PrimaryColumn(columns[1..])
  }

  /** Like `.find`, the search returns the first matching column. */
  lemma {:induction false} PrimaryColumnFirst(columns: seq<SqlColumn>)
    ensures var r := PrimaryColumn(columns);
            r.Some? ==> exists i :: 0 <= i < |columns| && columns[i] == r.value
                                    && forall j :: 0 <= j < i ==> !HasPk(columns[j].info)
  {
    if columns != [] && !HasPk(columns[0].info) {
      PrimaryColumnFirst(columns[1..]);
      var r := PrimaryColumn(columns);
      if r.Some? {
        var i :| 0 <= i < |columns[1..]| && columns[1..][i] == r.value
                 && forall j :: 0 <= j < i ==> !HasPk(columns[1..][j].info);
        assert columns[i + 1] == r.value;
        forall j | 0 <= j < i + 1
          ensures !HasPk(columns[j].info)
        {
          if j > 0 { assert columns[j] == columns[1..][j - 1]; }
        }
      }
    } else if columns != [] {
      assert columns[0] == PrimaryColumn(columns).value;
    }
  }

  /** `columns.find(x => x.info.name === value)` for an argument of any type. */
  function ColumnMatching(columns: seq<SqlColumn>, value: Value): (r: Option<SqlColumn>)
    ensures r.Some? ==> r.value in columns && value == Str(r.value.info.name)
    ensures r.None? <==> forall c :: c in columns ==> value != Str(c.info.name)
  {
    if columns == [] then None
    else if value == Str(columns[0].info.name) then Some(columns[0])
    else ColumnMatching(columns[1..], value)
  }

  /** Like `.find`, the search returns the first matching column. */
  lemma {:induction false} ColumnMatchingFirst(columns: seq<SqlColumn>, value: Value)
    ensures var r := ColumnMatching(columns, value);
            r.Some? ==> exists i :: 0 <= i < |columns| && columns[i] == r.value
                                    && forall j :: 0 <= j < i ==> value != Str(columns[j].info.name)
  {
    if columns != [] && value != Str(columns[0].info.name) {
      ColumnMatchingFirst(columns[1..], value);
      var r := ColumnMatching(columns, value);
      if r.Some? {
        var i :| 0 <= i < |columns[1..]| && columns[1..][i] == r.value
                 && forall j :: 0 <= j < i ==> value != Str(columns[1..][j].info.name);
        assert columns[i + 1] == r.value;
        forall j | 0 <= j < i + 1
          ensures value != Str(columns[j].info.name)
        {
          if j > 0 { assert columns[j] == columns[1..][j - 1]; }
        }
      }
    } else if columns != [] {
      assert columns[0] == ColumnMatching(columns, value).value;
    }
  }

  /** `getSortField`: the column a truthy `sortField` names, else the first `pk` column,
      else the first column. */
  function SortField(entity: SqlEntity, args: Value): Option<SqlColumn>
    requires !Nullish(args)
  {
    var named := if Truthy(Prop(args, "sortField")) then ColumnMatching(entity.columns, Prop(args, "sortField")) else None;
    if named.Some? then named
    else if PrimaryColumn(entity.columns).Some? then PrimaryColumn(entity.columns)
    else if entity.columns != [] then Some(entity.columns[0])
    else None
  }

  function PkColumns(columns: seq<SqlColumn>): (r: seq<SqlColumn>)
    ensures forall c :: c in r <==> c in columns && c.isPrimary
  {
    if columns == [] then []
    else (if columns[0].isPrimary then [columns[0]] else []) + PkColumns(columns[1..])
  }

  function PkConditions(pks: seq<SqlColumn>): (r: seq<string>)
    ensures |r| == |pks| && forall i :: 0 <= i < |r| ==> r[i] == "[parent].[" + pks[i].name + "] = [root].[" + pks[i].name + "]"
  {
    seq(|pks|, i requires 0 <= i < |pks| => "[parent].[" + pks[i].name + "] = [root].[" + pks[i].name + "]")
  }

  /** The root's own columns, each under its field's name. */
  function RootColumns(columns: seq<SqlColumn>): (r: seq<string>)
    ensures |r| == |columns| && forall i :: 0 <= i < |r| ==> r[i] == "[root].[" + columns[i].name + "] AS [" + columns[i].info.name + "]"
  {
    seq(|columns|, i requires 0 <= i < |columns| => "[root].[" + columns[i].name + "] AS [" + columns[i].info.name + "]")
  }

  /** A many-to-one relation's columns, each under the dotted path of its field. */
  function AliasedColumns(alias: string, columns: seq<SqlColumn>): (r: seq<string>)
    ensures |r| == |columns| && forall i :: 0 <= i < |r| ==> r[i] == "[" + alias + "].[" + columns[i].name + "] AS [" + alias + "." + columns[i].info.name + "]"
  {
    seq(|columns|, i requires 0 <= i < |columns| => "[" + alias + "].[" + columns[i].name + "] AS [" + alias + "." + columns[i].info.name + "]")
  }

  // ---------------------------------------------------------------- the head of `build`

  /** The temporary table a context is written into when it has children. */
  function PossibleInto(parent: Option<ParentLink>): string
  {
    if parent.Some? then parent.value.tempTable + "_" + parent.value.relation.field.name else "root"
  }

  /** The name under which the parent exposes the relation's source column to a child:
      the navigation path, two underscores and the source field. */
  function LinkKey(link: ParentLink): string
  {
    link.navigationPath + "__" + link.relation.source.field.name
  }

  /** The column a child pushes into its parent's context: the source column, read
      through the navigation path's alias or the root. */
  function ParentColumn(entities: seq<SqlEntity>, parent: Option<ParentLink>): Result<Option<string>>
  {
    if parent.None? then Ok(None)
    else
      var link := parent.value;
      var sourceEntity := EntityNamed(entities, link.relation.source.model.name);
      if sourceEntity.None? then Err(UndefinedRead)
      else
        var sourceColumn := ColumnOfField(sourceEntity.value.columns, link.relation.source.field.name);
        if sourceColumn.None? then Err(UndefinedRead)
        else
          var reader := if |link.navigationPath| > 0 then "[" + link.navigationPath + "]" else "[root]";
          Ok(Some(reader + ".[" + sourceColumn.value.name + "] AS [" + LinkKey(link) + "]"))
  }

  /** The root's joins: a child joins its parent's temporary table on the linked column;
      a root reading a table variable joins it on every primary key. */
  function ParentJoins(entity: SqlEntity, parent: Option<ParentLink>, parentVariableTable: Option<string>): Result<seq<string>>
  {
    if parent.Some? then
      var link := parent.value;
      var destField := ColumnOfField(entity.columns, link.relation.dest.field.name);
      if destField.None? then Err(UndefinedRead)
      else Ok(["INNER JOIN #" + link.tempTable + " [parent] on [parent].[" + LinkKey(link) + "] = [root].[" + destField.value.name + "]"])
    else if Present(parentVariableTable) then
      Ok(["INNER JOIN @" + parentVariableTable.value + " [parent] on " + Join(PkConditions(PkColumns(entity.columns)), " AND ")])
    else Ok([])
  }

  /** The column a child selects from the parent's temporary table so its rows can be
      matched to their parent. */
  function OwnParentColumns(parent: Option<ParentLink>): seq<string>
  {
    if parent.None? then []
    else
      var link := parent.value;
      var path := if |link.navigationPath| > 0 then "__" + link.navigationPath else "";
      ["[parent].[" + LinkKey(link) + "] AS [__parent" + path + "__" + link.relation.source.field.name + "]"]
  }

  /** `ORDER BY` text: descending exactly when `sortOrder` is `'DESC'`. */
  function OrderByText(sortField: SqlColumn, args: Value): string
    requires !Nullish(args)
  {
    "[root].[" + sortField.name + "] " + (if StrictEq(Prop(args, "sortOrder"), Str("DESC")) then "DESC" else "ASC")
  }

  /** `limit` alone is a `TOP`; `limit` with `offset` is an offset and a fetch. */
  function Paging(ctx: QueryContext, args: Value): Result<QueryContext>
    requires !Nullish(args)
  {
    var hasLimit :- Has(args, "limit");
    if !hasLimit then Ok(ctx)
    else
      var hasOffset :- Has(args, "offset");
      if !hasOffset then Ok(ctx.(top := Prop(args, "limit")))
      else Ok(ctx.(offset := Prop(args, "offset"), fetch := Prop(args, "limit")))
  }

  /** `build` up to pushing its context: the entity, the column for the parent, the
      root's columns, joins, ordering and paging. */
  function HeadOf(entities: seq<SqlEntity>, projection: Projection, parent: Option<ParentLink>,
                  parentVariableTable: Option<string>): (r: Result<Head>)
    requires projection.Expand?
    ensures r.Ok? ==> !Nullish(r.value.args) && r.value.ctx.into.None? && r.value.ctx.wheres == []
                      && (r.value.parentColumn.Some? <==> parent.Some?)
  {
    var args := if Nullish(projection.args) then Obj([]) else projection.args;
    var entity := if parent.Some? then EntityOfModel(entities, parent.value.relation.dest.model) else EntityNamed(entities, projection.name);
    if entity.None? then Err(UndefinedRead)
    else
      var e := entity.value;
      var columns :- SelectedColumns(e.columns, projection.fields);
      var parentColumn :- ParentColumn(entities, parent);
      var joins :- ParentJoins(e, parent, parentVariableTable);
      var sortField := SortField(e, args);
      if sortField.None? then Err(UndefinedRead)
      else
        var ctx := QueryContext([], None, TableNameAccess(e, "root"), RootColumns(columns), joins, [],
                                OrderByText(sortField.value, args), Undefined, Undefined, Undefined);
        var paged :- Paging(ctx, args);
        Ok(Head(parentColumn, paged.(columns := paged.columns + OwnParentColumns(parent)), e, args))
  }

  /** `buildManyToOneRelations` up to its loops: the join of the relation's table and
      its columns under the dotted alias. */
  function ManyToOneHead(entities: seq<SqlEntity>, ctx: QueryContext, mapName: string, projection: Projection,
                         link: ParentLink, alias: string): (r: Result<(QueryContext, SqlEntity)>)
    requires projection.Expand?
    ensures r.Ok? ==> Grows(Step(ctx, []), Step(r.value.0, []))
  {
    var relation := link.relation;
    var sourceEntity := EntityOfModel(entities, relation.source.model);
    var destEntity := EntityOfModel(entities, relation.dest.model);
    if destEntity.None? then Err(UndefinedRead)
    else
      var dest := destEntity.value;
      var columns :- SelectedColumns(dest.columns, projection.fields);
      if sourceEntity.None? then Err(UndefinedRead)
      else
        var sourceColumn := ColumnOfField(sourceEntity.value.columns, relation.source.field.name);
        var destColumn := ColumnOfField(dest.columns, relation.dest.field.name);
        if sourceColumn.None? || destColumn.None? then Err(UndefinedRead)
        else
          var join := (if relation.nonNull then "INNER" else "LEFT") + " JOIN " + TableNameAccess(dest, alias)
                      + " ON [" + alias + "].[" + destColumn.value.name + "] = [" + mapName + "].[" + sourceColumn.value.name + "]";
          Ok((ctx.(joins := ctx.joins + [join], columns := ctx.columns + AliasedColumns(alias, columns)), dest))
  }

  // ---------------------------------------------------------------- the specification

  /** `build`: the root context first, then the contexts its many-to-one and one-to-many
      relations return; the root is written into a temporary table exactly when it has
      any. */
  function BuildOf(entities: seq<SqlEntity>, projection: Projection, parent: Option<ParentLink>,
                   parentVariableTable: Option<string>, keepNested: bool): (r: Result<Built>)
    requires projection.Expand?
    ensures r.Ok? ==> |r.value.contexts| >= 1 && (r.value.parentColumn.Some? <==> parent.Some?)
    decreases projection, 3
  {
    var head :- HeadOf(entities, projection, parent, parentVariableTable);
    var possibleInto := PossibleInto(parent);
    var filtered :- WhereOf(entities, head.ctx, "root", head.entity, Prop(head.args, "where"), None);
    var m2o :- ManyToOneLoop(entities, projection, RelationsSelected(head.entity.manyToOnes, projection.fields), 0,
                             Step(filtered, []), "root", "", possibleInto, true, keepNested);
    var o2m :- OneToManyLoop(entities, projection, RelationsSelected(head.entity.oneToManies, projection.fields), 0,
                             m2o, "", possibleInto, keepNested);
    var root := if |o2m.contexts| > 0 then o2m.ctx.(into := Some(possibleInto)) else o2m.ctx;
    Ok(Built(head.parentColumn, [root] + o2m.contexts))
  }

  /** `buildManyToOneRelations`: joins into `ctx` and returns the contexts of the
      one-to-many relations below it (and, when `keepNested`, those of the many-to-one
      relations below it). */
  function ManyToOneOf(entities: seq<SqlEntity>, ctx: QueryContext, mapName: string, projection: Projection,
                       link: ParentLink, keepNested: bool): (r: Result<Step>)
    requires projection.Expand?
    ensures r.Ok? ==> Grows(Step(ctx, []), r.value)
    decreases projection, 3
  {
    var alias := (if |link.navigationPath| > 0 then link.navigationPath + "." else "") + link.relation.field.name;
    var head :- ManyToOneHead(entities, ctx, mapName, projection, link, alias);
    var m2o :- ManyToOneLoop(entities, projection, RelationsSelected(head.1.manyToOnes, projection.fields), 0,
                             Step(head.0, []), alias, alias, link.tempTable, keepNested, keepNested);
    OneToManyLoop(entities, projection, RelationsSelected(head.1.oneToManies, projection.fields), 0,
                  m2o, alias, link.tempTable, keepNested)
  }

  /** A many-to-one loop from relation `k` on; `collect` says whether the contexts each
      relation returns are kept. */
  function ManyToOneLoop(entities: seq<SqlEntity>, projection: Projection, rels: seq<(SqlRelation, Projection)>, k: nat,
                         acc: Step, mapName: string, navigationPath: string, tempTable: string, collect: bool,
                         keepNested: bool): (r: Result<Step>)
    requires projection.Expand? && k <= |rels| && forall x :: x in rels ==> x.1 in projection.fields && x.1.Expand?
    ensures r.Ok? ==> Grows(acc, r.value)
    decreases projection, 2, |rels| - k
  {
    if k == |rels| then Ok(acc)
    else
      var nested :- ManyToOneOf(entities, acc.ctx, mapName, rels[k].1, ParentLink(navigationPath, tempTable, rels[k].0), keepNested);
      var contexts := if collect then acc.contexts + nested.contexts else acc.contexts;
      ManyToOneLoop(entities, projection, rels, k + 1, Step(nested.ctx, contexts), mapName, navigationPath, tempTable, collect, keepNested)
  }

  /** A one-to-many loop from relation `k` on: each child is built with a parent link,
      pushes its column into the context and returns its contexts. */
  function OneToManyLoop(entities: seq<SqlEntity>, projection: Projection, rels: seq<(SqlRelation, Projection)>, k: nat,
                         acc: Step, navigationPath: string, tempTable: string, keepNested: bool): (r: Result<Step>)
    requires projection.Expand? && k <= |rels| && forall x :: x in rels ==> x.1 in projection.fields && x.1.Expand?
    ensures r.Ok? ==> Grows(acc, r.value)
    decreases projection, 2, |rels| - k
  {
    if k == |rels| then Ok(acc)
    else
      var child :- BuildOf(entities, rels[k].1, Some(ParentLink(navigationPath, tempTable, rels[k].0)), None, keepNested);
      var pushed := acc.ctx.(columns := acc.ctx.columns + [child.parentColumn.value]);
      OneToManyLoop(entities, projection, rels, k + 1, Step(pushed, acc.contexts + child.contexts), navigationPath, tempTable, keepNested)
  }

  // ---------------------------------------------------------------- the builder

  /** `build` */
  method Build(entities: seq<SqlEntity>, projection: Projection, parent: Option<ParentLink>,
               parentVariableTable: Option<string>, keepNested: bool) returns (r: Result<Built>)
    requires projection.Expand?
    ensures r == BuildOf(entities, projection, parent, parentVariableTable, keepNested)
    decreases projection, 3
  {
    var head := HeadOf(entities, projection, parent, parentVariableTable);
    if head.Err? {
      return Err(head.error);
    }
    var entity := head.value.entity;
    var possibleInto := PossibleInto(parent);
    var filtered := BuildWhere(entities, head.value.ctx, "root", entity, Prop(head.value.args, "where"), None);
    if filtered.Err? {
      return Err(filtered.error);
    }
    var m2o := BuildManyToOnes(entities, projection, RelationsSelected(entity.manyToOnes, projection.fields),
                               Step(filtered.value, []), "root", "", possibleInto, true, keepNested);
    if m2o.Err? {
      return Err(m2o.error);
    }
    var o2m := BuildOneToManies(entities, projection, RelationsSelected(entity.oneToManies, projection.fields),
                                m2o.value, "", possibleInto, keepNested);
    if o2m.Err? {
      return Err(o2m.error);
    }
    var queryContext := o2m.value.ctx;
    if |o2m.value.contexts| > 0 {
      queryContext := queryContext.(into := Some(possibleInto));
    }
    return Ok(Built(head.value.parentColumn, [queryContext] + o2m.value.contexts));
  }

  /** `buildManyToOneRelations` */
  method BuildManyToOne(entities: seq<SqlEntity>, ctx: QueryContext, mapName: string, projection: Projection,
                        link: ParentLink, keepNested: bool) returns (r: Result<Step>)
    requires projection.Expand?
    ensures r == ManyToOneOf(entities, ctx, mapName, projection, link, keepNested)
    decreases projection, 3
  {
    var alias := (if |link.navigationPath| > 0 then link.navigationPath + "." else "") + link.relation.field.name;
    var head := ManyToOneHead(entities, ctx, mapName, projection, link, alias);
    if head.Err? {
      return Err(head.error);
    }
    var (queryContext, destEntity) := head.value;
    var m2o := BuildManyToOnes(entities, projection, RelationsSelected(destEntity.manyToOnes, projection.fields),
                               Step(queryContext, []), alias, alias, link.tempTable, keepNested, keepNested);
    if m2o.Err? {
      return Err(m2o.error);
    }
    r := BuildOneToManies(entities, projection, RelationsSelected(destEntity.oneToManies, projection.fields),
                          m2o.value, alias, link.tempTable, keepNested);
  }

  /** `for (const rel of manyToOneRelations) buildManyToOneRelations(...)`, keeping the
      contexts each returns when `collect` holds. */
  method BuildManyToOnes(entities: seq<SqlEntity>, projection: Projection, rels: seq<(SqlRelation, Projection)>,
                         acc: Step, mapName: string, navigationPath: string, tempTable: string, collect: bool,
                         keepNested: bool) returns (r: Result<Step>)
    requires projection.Expand? && forall x :: x in rels ==> x.1 in projection.fields && x.1.Expand?
    ensures r == ManyToOneLoop(entities, projection, rels, 0, acc, mapName, navigationPath, tempTable, collect, keepNested)
    decreases projection, 2
  {
    var queryContext := acc.ctx;
    var queryContexts := acc.contexts;
    for k := 0 to |rels|
      invariant ManyToOneLoop(entities, projection, rels, k, Step(queryContext, queryContexts), mapName, navigationPath, tempTable, collect, keepNested)
             == ManyToOneLoop(entities, projection, rels, 0, acc, mapName, navigationPath, tempTable, collect, keepNested)
    {
      var extra := BuildManyToOne(entities, queryContext, mapName, rels[k].1, ParentLink(navigationPath, tempTable, rels[k].0), keepNested);
      if extra.Err? {
        return Err(extra.error);
      }
      queryContext := extra.value.ctx;
      if collect {
        queryContexts := queryContexts + extra.value.contexts;
      }
    }
    return Ok(Step(queryContext, queryContexts));
  }

  /** `for (const rel of oneToManyRelations)`: each child pushes its column into the
      context and its contexts into the list. */
  method BuildOneToManies(entities: seq<SqlEntity>, projection: Projection, rels: seq<(SqlRelation, Projection)>,
                          acc: Step, navigationPath: string, tempTable: string, keepNested: bool) returns (r: Result<Step>)
    requires projection.Expand? && forall x :: x in rels ==> x.1 in projection.fields && x.1.Expand?
    ensures r == OneToManyLoop(entities, projection, rels, 0, acc, navigationPath, tempTable, keepNested)
    decreases projection, 2
  {
    var queryContext := acc.ctx;
    var queryContexts := acc.contexts;
    for k := 0 to |rels|
      invariant OneToManyLoop(entities, projection, rels, k, Step(queryContext, queryContexts), navigationPath, tempTable, keepNested)
             == OneToManyLoop(entities, projection, rels, 0, acc, navigationPath, tempTable, keepNested)
    {
      var child := Build(entities, rels[k].1, Some(ParentLink(navigationPath, tempTable, rels[k].0)), None, keepNested);
      if child.Err? {
        return Err(child.error);
      }
      queryContext := queryContext.(columns := queryContext.columns + [child.value.parentColumn.value]);
      queryContexts := queryContexts + child.value.contexts;
    }
    return Ok(Step(queryContext, queryContexts));
  }
}
