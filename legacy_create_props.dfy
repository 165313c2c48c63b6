/** What the create builder of `create-builder.ts` promises: each table variable is named by its path and
    hands out the indices 0, 1, 2, … to the objects inserted through it, which a nested
    insert leaves alone; parameters are bound for column properties only; a root object
    takes its values from its parameters and a nested one joins its parent's row by index;
    a single-valued relation inserts exactly one object. */
module LegacyCreateProps {
  import opened Js
  import opened Schema
  import opened LegacySchema
  import opened LegacyUpdate
  import opened CriteriaBuilder
  import opened LegacyCreate

  lemma KeepsWeaken(a: map<string, TempTable>, b: map<string, TempTable>, n: nat, m: nat)
    requires Keeps(a, b, n) && m <= n
    ensures Keeps(a, b, m)
  {
    ShortShort(a, n, m);
    ShortShort(b, n, m);
  }

  lemma ShortShort(a: map<string, TempTable>, n: nat, m: nat)
    requires m <= n
    ensures Short(Short(a, n), m) == Short(a, m)
  {
  }

  /** The table variable of `name` advanced by `m` indices. */
  function Advance(tables: map<string, TempTable>, name: string, m: nat): (r: map<string, TempTable>)
    requires name in tables
    ensures r.Keys == tables.Keys && r[name].lastIndex == tables[name].lastIndex + m
  {
    tables[name := tables[name].(lastIndex := tables[name].lastIndex + m)]
  }

  /** Updating a short name updates the short part. */
  lemma ShortUpdate(tables: map<string, TempTable>, name: string, t: TempTable, n: nat)
    requires |name| < n
    ensures Short(tables[name := t], n) == Short(tables, n)[name := t]
  {
  }

  /** Updating a long name leaves the short part alone. */
  lemma ShortIgnores(tables: map<string, TempTable>, name: string, t: TempTable, n: nat)
    requires |name| >= n
    ensures Short(tables[name := t], n) == Short(tables, n)
  {
  }

  /** The loop of `buildModel` advances its table variable by one index per object and
      leaves every other name of at most that length alone. */
  lemma {:induction false} FromAdvance(corrected: bool, entities: seq<SqlEntity>, s: CreateState, entity: SqlEntity, objects: Value,
                                       items: seq<Value>, i: nat, name: string, nested: seq<string>, parent: Option<ParentInfo>, m: nat)
    requires i <= |items| && m == |items| - i && name in s.tempTables && nested != [] && Join(nested, "_") == name
    requires forall j :: 0 <= j < |items| ==> Size(items[j]) <= Size(objects)
    ensures var r := ModelFrom(corrected, entities, s, entity, objects, items, i, name, nested, parent);
            r.Ok? ==> Keeps(Advance(s.tempTables, name, m), r.value.tempTables, |name| + 1)
    decreases Size(objects), 2, |items| - i, 2
  {
    if i < |items| {
      FromAdvanceStep(corrected, entities, s, entity, objects, items, i, name, nested, parent, m);
    } else {
      AdvanceZero(s.tempTables, name, m);
    }
  }

  /** `FromAdvance` for a loop that still has an object to insert. */
  lemma {:induction false} FromAdvanceStep(corrected: bool, entities: seq<SqlEntity>, s: CreateState, entity: SqlEntity, objects: Value,
                                           items: seq<Value>, i: nat, name: string, nested: seq<string>, parent: Option<ParentInfo>, m: nat)
    requires i < |items| && m == |items| - i && name in s.tempTables && nested != [] && Join(nested, "_") == name
    requires forall j :: 0 <= j < |items| ==> Size(items[j]) <= Size(objects)
    ensures var r := ModelFrom(corrected, entities, s, entity, objects, items, i, name, nested, parent);
            r.Ok? ==> Keeps(Advance(s.tempTables, name, m), r.value.tempTables, |name| + 1)
    decreases Size(objects), 2, |items| - i, 1
  {
    var next, r, after := FromStep(corrected, entities, s, entity, objects, items, i, name, nested, parent);
    if next.Ok? {
      var j, rest := i + 1, m - 1;
      FromAdvance(corrected, entities, next.value, entity, objects, items, j, name, nested, parent, rest);
      ResultChain(s.tempTables, next.value.tempTables, r, after, name, m, rest, |name| + 1);
    }
  }

  /** One object of the loop: its insert takes one index from the table variable. */
  lemma {:induction false} FromStep(corrected: bool, entities: seq<SqlEntity>, s: CreateState, entity: SqlEntity, objects: Value,
                                    items: seq<Value>, i: nat, name: string, nested: seq<string>, parent: Option<ParentInfo>)
    returns (next: Result<CreateState>, r: Result<CreateState>, after: Result<CreateState>)
    requires i < |items| && name in s.tempTables && nested != [] && Join(nested, "_") == name
    requires forall j :: 0 <= j < |items| ==> Size(items[j]) <= Size(objects)
    ensures next == ObjectOf(corrected, entities, s, entity, items[i], name, nested, parent)
    ensures r == ModelFrom(corrected, entities, s, entity, objects, items, i, name, nested, parent)
    ensures next.Ok? ==> name in next.value.tempTables && Keeps(Bump(s.tempTables, name), next.value.tempTables, |name| + 1)
                         && after == ModelFrom(corrected, entities, next.value, entity, objects, items, i + 1, name, nested, parent)
    ensures r == if next.Ok? then after else Err(next.error)
    decreases Size(objects), 2, |items| - i, 0
  {
    ModelFromStep(corrected, entities, s, entity, objects, items, i, name, nested, parent);
    next := ObjectOf(corrected, entities, s, entity, items[i], name, nested, parent);
    r := ModelFrom(corrected, entities, s, entity, objects, items, i, name, nested, parent);
    if next.Ok? {
      ObjectIndices(corrected, entities, s, entity, items[i], name, nested, parent);
      after := ModelFrom(corrected, entities, next.value, entity, objects, items, i + 1, name, nested, parent);
    } else {
      after := r;
    }
  }

  /** `AdvanceChain` for a result that is the rest of the loop. */
  lemma ResultChain(a: map<string, TempTable>, b: map<string, TempTable>, r: Result<CreateState>, rest: Result<CreateState>,
                    name: string, k: nat, m: nat, n: nat)
    requires name in a && |name| < n && r == rest && k == m + 1
    requires Keeps(Bump(a, name), b, n)
    requires rest.Ok? ==> name in b && Keeps(Advance(b, name, m), rest.value.tempTables, n)
    ensures r.Ok? ==> Keeps(Advance(a, name, k), r.value.tempTables, n)
  {
    if r.Ok? {
      AdvanceChain(a, b, r.value.tempTables, name, m, n);
    }
  }

  lemma AdvanceZero(tables: map<string, TempTable>, name: string, m: nat)
    requires name in tables && m == 0
    ensures Advance(tables, name, m) == tables
  {
  }

  /** One index taken, then `rest` more, is `rest + 1` indices. */
  lemma AdvanceChain(a: map<string, TempTable>, b: map<string, TempTable>, c: map<string, TempTable>,
                     name: string, rest: nat, n: nat)
    requires name in a && |name| < n
    requires Keeps(Bump(a, name), b, n)
    requires name in b && Keeps(Advance(b, name, rest), c, n)
    ensures Keeps(Advance(a, name, rest + 1), c, n)
  {
    var bumped := Bump(a, name);
    assert name in Short(bumped, n);
    assert b[name] == bumped[name];
    var t := b[name].(lastIndex := b[name].lastIndex + rest);
    assert Advance(b, name, rest) == b[name := t];
    ShortUpdate(b, name, t, n);
    ShortUpdate(bumped, name, t, n);
    assert Advance(a, name, rest + 1) == bumped[name := t];
  }

  /** `buildModel` declares its table variable when it is new, advances it by one index
      per object, and leaves every other name of at most that length alone. */
  lemma {:induction false} ModelAdvance(corrected: bool, entities: seq<SqlEntity>, s: CreateState, entity: SqlEntity,
                                        objects: Value, path: seq<string>, parent: Option<ParentInfo>)
    ensures var r := ModelOf(corrected, entities, s, entity, objects, path, parent);
            var name := TableName(path, entity);
            r.Ok? ==> Items(objects).Ok?
                      && Keeps(Advance(Declared(s, name, entity).tempTables, name, |Items(objects).value|), r.value.tempTables, |name| + 1)
    decreases Size(objects), 3
  {
    ModelOfSteps(corrected, entities, s, entity, objects, path, parent);
    var r := ModelOf(corrected, entities, s, entity, objects, path, parent);
    if r.Ok? {
      var name := TableName(path, entity);
      FromAdvance(corrected, entities, Declared(s, name, entity), entity, objects, Items(objects).value, 0, name,
                  path + [entity.info.name], parent, |Items(objects).value|);
    }
  }

  /** `buildModelObject` takes one index from its table variable; what it inserts below
      itself only touches longer-named ones. */
  lemma {:induction false} ObjectIndices(corrected: bool, entities: seq<SqlEntity>, s: CreateState, entity: SqlEntity, o: Value,
                                         name: string, nested: seq<string>, parent: Option<ParentInfo>)
    requires name in s.tempTables && nested != [] && Join(nested, "_") == name
    ensures var r := ObjectOf(corrected, entities, s, entity, o, name, nested, parent);
            r.Ok? ==> Keeps(Bump(s.tempTables, name), r.value.tempTables, |name| + 1)
    decreases Size(o), 1
  {
    ObjectOfSteps(corrected, entities, s, entity, o, name, nested, parent);
    var props := OwnProperties(o);
    if props.Ok? {
      var t := s.tempTables[name];
      var columns := FieldColumns(entity.columns, Keys(props.value));
      var rows := InsertChunks(corrected, entities, entity, t, t.lastIndex, columns, parent);
      if rows.Ok? {
        var inserted := CreateState(Bump(s.tempTables, name), s.chunks + rows.value,
                                    BindParams(s.params, t.lastIndex, entity, columns, props.value));
        RelationsIndices(corrected, entities, inserted, o, props.value, FieldRelations(entity, Keys(props.value)),
                         0, nested, t.tableName, t.lastIndex);
      }
    }
  }

  /** Following the relations only touches table variables longer than the parent's. */
  lemma {:induction false} RelationsIndices(corrected: bool, entities: seq<SqlEntity>, s: CreateState, o: Value, props: Fields,
                                            relations: seq<SqlRelation>, k: nat, nested: seq<string>, tableName: string, index: nat)
    requires k <= |relations| && nested != []
    requires relations == [] || (o.Obj? && props == o.fields)
    ensures var r := RelationsFrom(corrected, entities, s, o, props, relations, k, nested, tableName, index);
            r.Ok? ==> Keeps(s.tempTables, r.value.tempTables, |Join(nested, "_")| + 1)
    decreases Size(o), 0, |relations| - k, 2
  {
    if k < |relations| {
      RelationsIndicesStep(corrected, entities, s, o, props, relations, k, nested, tableName, index);
    }
  }

  /** `RelationsIndices` for a relation still to follow. */
  lemma {:induction false} RelationsIndicesStep(corrected: bool, entities: seq<SqlEntity>, s: CreateState, o: Value, props: Fields,
                                                relations: seq<SqlRelation>, k: nat, nested: seq<string>, tableName: string, index: nat)
    requires k < |relations| && nested != []
    requires relations == [] || (o.Obj? && props == o.fields)
    ensures var r := RelationsFrom(corrected, entities, s, o, props, relations, k, nested, tableName, index);
            r.Ok? ==> Keeps(s.tempTables, r.value.tempTables, |Join(nested, "_")| + 1)
    decreases Size(o), 0, |relations| - k, 1
  {
    RelationsStep(corrected, entities, s, o, props, relations, k, nested, tableName, index);
    var relation := relations[k];
    var entityRel := EntityOfModel(entities, relation.dest.model);
    if entityRel.Some? {
      var objects := RelationObjects(relation, props);
      var next := ModelOf(corrected, entities, s, entityRel.value, objects, nested, Some(ParentInfo(tableName, index, relation)));
      if next.Ok? {
        RelationsIndicesChild(corrected, entities, s, o, props, relations, k, nested, tableName, index, entityRel.value, next.value);
      }
    }
  }

  /** The relation's objects were inserted into `next`; the rest of the relations follow. */
  lemma {:induction false} RelationsIndicesChild(corrected: bool, entities: seq<SqlEntity>, s: CreateState, o: Value, props: Fields,
                                                 relations: seq<SqlRelation>, k: nat, nested: seq<string>, tableName: string, index: nat,
                                                 child: SqlEntity, next: CreateState)
    requires k < |relations| && nested != [] && o.Obj? && props == o.fields
    requires ModelOf(corrected, entities, s, child, RelationObjects(relations[k], props), nested,
                     Some(ParentInfo(tableName, index, relations[k]))) == Ok(next)
    ensures var r := RelationsFrom(corrected, entities, next, o, props, relations, k + 1, nested, tableName, index);
            r.Ok? ==> Keeps(s.tempTables, r.value.tempTables, |Join(nested, "_")| + 1)
    decreases Size(o), 0, |relations| - k, 0
  {
    var objects := RelationObjects(relations[k], props);
    RelationObjectsSmaller(relations[k], o.fields);
    ModelAdvance(corrected, entities, s, child, objects, nested, Some(ParentInfo(tableName, index, relations[k])));
    RelationsIndices(corrected, entities, next, o, props, relations, k + 1, nested, tableName, index);
    ChildKeeps(s, child, nested, |Items(objects).value|, next.tempTables);
  }

  /** A nested `buildModel` leaves every name no longer than its parent's alone. */
  lemma ChildKeeps(s: CreateState, child: SqlEntity, nested: seq<string>, m: nat, after: map<string, TempTable>)
    requires nested != []
    requires var name := TableName(nested, child);
             Keeps(Advance(Declared(s, name, child).tempTables, name, m), after, |name| + 1)
    ensures Keeps(s.tempTables, after, |Join(nested, "_")| + 1)
  {
    var name := TableName(nested, child);
    var n := |Join(nested, "_")| + 1;
    var declared := Declared(s, name, child).tempTables;
    KeepsWeaken(Advance(declared, name, m), after, |name| + 1, n);
    ShortIgnores(declared, name, declared[name].(lastIndex := declared[name].lastIndex + m), n);
    if name !in s.tempTables {
      ShortIgnores(s.tempTables, name, TempTable(0, name, KeyColumns(child.columns)), n);
    }
  }

  /** `buildModel` leaves every table variable with a shorter name alone, and advances its
      own by one index per object, starting from 0 when it declares it. */
  lemma ModelIndices(corrected: bool, entities: seq<SqlEntity>, s: CreateState, entity: SqlEntity,
                     objects: Value, path: seq<string>, parent: Option<ParentInfo>)
    ensures var r := ModelOf(corrected, entities, s, entity, objects, path, parent);
            var name := TableName(path, entity);
            var start := if name in s.tempTables then s.tempTables[name].lastIndex else 0;
            r.Ok? ==> Items(objects).Ok? && Keeps(s.tempTables, r.value.tempTables, |name|) && name in r.value.tempTables
                      && r.value.tempTables[name].lastIndex == start + |Items(objects).value|
                      && (name !in s.tempTables ==> r.value.tempTables[name].pks == KeyColumns(entity.columns))
  {
    var r := ModelOf(corrected, entities, s, entity, objects, path, parent);
    ModelAdvance(corrected, entities, s, entity, objects, path, parent);
    if r.Ok? {
      var name := TableName(path, entity);
      var declared := Declared(s, name, entity).tempTables;
      var advanced := Advance(declared, name, |Items(objects).value|);
      assert name in Short(advanced, |name| + 1);
      KeepsWeaken(advanced, r.value.tempTables, |name| + 1, |name|);
      ShortIgnores(declared, name, advanced[name], |name|);
      if name !in s.tempTables {
        ShortIgnores(s.tempTables, name, TempTable(0, name, KeyColumns(entity.columns)), |name|);
      }
    }
  }

  /** A build declares the root entity's table variable first and numbers the root
      objects 0 … n-1. */
  lemma CreateRoot(corrected: bool, entities: seq<SqlEntity>, entity: SqlEntity, objects: seq<Value>)
    ensures var r := CreateOf(corrected, entities, entity, objects);
            var name := entity.info.name;
            r.Ok? ==> |r.value.chunks| > 0 && r.value.chunks[0] == Declaration(name, KeyColumns(entity.columns))
                      && name in r.value.tempTables && r.value.tempTables[name].lastIndex == |objects|
  {
    var r := CreateOf(corrected, entities, entity, objects);
    ModelIndices(corrected, entities, Empty, entity, Arr(objects), [], None);
    if r.Ok? {
      var name := entity.info.name;
      assert TableName([], entity) == name;
      var declared := Declared(Empty, name, entity);
      assert declared.chunks == [Declaration(name, KeyColumns(entity.columns))];
      ModelOfSteps(corrected, entities, Empty, entity, Arr(objects), [], None);
      assert Grows(declared, r.value);
    }
  }

  /** Two columns of one object get the same parameter name exactly when their field
      names agree. */
  lemma ParamNameInjective(index: nat, entity: SqlEntity, a: SqlColumn, b: SqlColumn)
    ensures ParamName(index, entity, a) == ParamName(index, entity, b) <==> a.info.name == b.info.name
  {
    var prefix := "item_" + NatToString(index) + "_" + entity.info.name + "_";
    assert ParamName(index, entity, a) == prefix + a.info.name;
    assert ParamName(index, entity, b) == prefix + b.info.name;
    if ParamName(index, entity, a) == ParamName(index, entity, b) {
      assert a.info.name == (prefix + a.info.name)[|prefix|..];
    }
  }

  /** The parameter of each column holds the object's value of that column's field. */
  lemma {:induction false} BindParamsBinds(params: Fields, index: nat, entity: SqlEntity, columns: seq<SqlColumn>, props: Fields, j: nat)
    requires j < |columns|
    ensures Lookup(BindParams(params, index, entity, columns, props), ParamName(index, entity, columns[j]))
            == Lookup(props, columns[j].info.name)
  {
    var n := |columns| - 1;
    var last := columns[n];
    var init := columns[..n];
    var key := ParamName(index, entity, columns[j]);
    var lastKey := ParamName(index, entity, last);
    var v := Lookup(props, last.info.name);
    var want := Lookup(props, columns[j].info.name);
    var prev := BindParams(params, index, entity, init, props);
    assert BindParams(params, index, entity, columns, props) == Put(prev, lastKey, v);
    if j == n {
      LookupPutAs(prev, lastKey, v, key, want, true);
    } else {
      assert init[j] == columns[j];
      BindParamsBinds(params, index, entity, init, props, j);
      ParamNameInjective(index, entity, last, columns[j]);
      LookupPutAs(prev, lastKey, v, key, want, last.info.name == columns[j].info.name);
    }
  }

  /** What `LookupPut` gives, for a key whose value is known either way. */
  lemma LookupPutAs(fields: Fields, key: string, value: Value, other: string, want: Value, same: bool)
    requires same <==> other == key
    requires same ==> value == want
    requires !same ==> Lookup(fields, other) == want
    ensures Lookup(Put(fields, key, value), other) == want
  {
    LookupPut(fields, key, value, other);
  }

  /** Binding leaves every other parameter as it was. */
  lemma {:induction false} BindParamsOthers(params: Fields, index: nat, entity: SqlEntity, columns: seq<SqlColumn>, props: Fields, key: string)
    requires forall c :: c in columns ==> key != ParamName(index, entity, c)
    ensures Lookup(BindParams(params, index, entity, columns, props), key) == Lookup(params, key)
  {
    if columns != [] {
      var last := columns[|columns| - 1];
      var init := columns[..|columns| - 1];
      LookupPut(BindParams(params, index, entity, init, props), ParamName(index, entity, last), Lookup(props, last.info.name), key);
      assert forall c :: c in init ==> c in columns;
      BindParamsOthers(params, index, entity, init, props, key);
    }
  }

  /** A root object's insert never fails; its values are one placeholder per column, in
      order, each bound to the object's value of that column. */
  lemma RootValues(corrected: bool, entities: seq<SqlEntity>, entity: SqlEntity, t: TempTable, index: nat,
                   columns: seq<SqlColumn>, params: Fields, props: Fields)
    ensures var rows := InsertChunks(corrected, entities, entity, t, index, columns, None);
            var bound := BindParams(params, index, entity, columns, props);
            rows.Ok? && |rows.value| == 4 && rows.value[0] == InsertInto(entity) && rows.value[2] == OutputChunk(t, index)
            && exists holders: seq<string> ::
                 |holders| == |columns| && rows.value[3] == "VALUES (" + Join(holders, ",") + ")"
                 && forall j :: 0 <= j < |holders| ==>
                      |holders[j]| >= 1 && holders[j][..1] == "@" && Lookup(bound, holders[j][1..]) == Lookup(props, columns[j].info.name)
  {
    var holders := Vars(index, entity, columns);
    var bound := BindParams(params, index, entity, columns, props);
    forall j | 0 <= j < |holders|
      ensures |holders[j]| >= 1 && holders[j][..1] == "@" && Lookup(bound, holders[j][1..]) == Lookup(props, columns[j].info.name)
    {
      BindParamsBinds(params, index, entity, columns, props, j);
      Holder(holders[j], ParamName(index, entity, columns[j]), bound, Lookup(props, columns[j].info.name));
    }
    assert InsertChunks(corrected, entities, entity, t, index, columns, None).value[3] == "VALUES (" + Join(holders, ",") + ")";
  }

  /** A placeholder `@<name>` whose name is bound to `v`. */
  lemma Holder(holder: string, name: string, bound: Fields, v: Value)
    requires holder == "@" + name && Lookup(bound, name) == v
    ensures |holder| >= 1 && holder[..1] == "@" && Lookup(bound, holder[1..]) == v
  {
    assert holder[1..] == name;
  }

  /** With the destination entity looked up by model, a nested object's insert fails
      exactly when the inserted entity has no column for the relation's destination
      field; otherwise it names that column first and selects the parent's key from the
      parent's row of the parent's table variable. */
  lemma NestedInsert(entities: seq<SqlEntity>, entity: SqlEntity, t: TempTable, index: nat, columns: seq<SqlColumn>, p: ParentInfo)
    requires EntityOfModel(entities, p.relation.dest.model) == Some(entity)
    ensures var rows := InsertChunks(true, entities, entity, t, index, columns, Some(p));
            var column := ColumnOfField(entity.columns, p.relation.dest.field.name);
            (rows.Ok? <==> column.Some?)
            && (rows.Ok? ==> |rows.value| == 4 && rows.value[0] == InsertInto(entity)
                             && StartsWith(rows.value[1], "([" + column.value.name + "],")
                             && rows.value[2] == OutputChunk(t, index)
                             && StartsWith(rows.value[3], "SELECT t.[" + p.relation.source.field.name + "], ")
                             && EndsWith(rows.value[3], " FROM @" + p.tableName + " AS t WHERE __index = " + NatToString(p.index)))
  {
    var rows := InsertChunks(true, entities, entity, t, index, columns, Some(p));
    var column := ColumnOfField(entity.columns, p.relation.dest.field.name);
    assert DestColumn(true, entities, entity, p.relation) == if column.Some? then Ok(column.value) else Err(UndefinedRead);
    if rows.Ok? {
      NestedRows(rows.value, InsertInto(entity), column.value.name, Join(Bracketed(columns), ", "), OutputChunk(t, index),
                 p.relation.source.field.name, Join(Vars(index, entity, columns), ","), p.tableName, NatToString(p.index));
    }
  }

  /** The four chunks of a nested insert, piece by piece. */
  lemma NestedRows(rows: seq<string>, insert: string, column: string, bracketed: string, output: string,
                   source: string, vars: string, tableName: string, parentIndex: string)
    requires rows == [insert, "([" + column + "]," + bracketed + ")", output,
                      "SELECT t.[" + source + "], " + vars + " FROM @" + tableName + " AS t WHERE __index = " + parentIndex]
    ensures |rows| == 4 && rows[0] == insert && StartsWith(rows[1], "([" + column + "],") && rows[2] == output
            && StartsWith(rows[3], "SELECT t.[" + source + "], ")
            && EndsWith(rows[3], " FROM @" + tableName + " AS t WHERE __index = " + parentIndex)
  {
    var head := "([" + column + "],";
    StartsWithConcat(head, bracketed + ")", head);
    var select := "SELECT t.[" + source + "], ";
    var tail := " FROM @" + tableName + " AS t WHERE __index = " + parentIndex;
    assert rows[3] == select + vars + tail;
    StartsWithConcat(select, vars + tail, select);
    EndsWithSelf(select + vars, tail);
  }

  /** As written, a nested single-valued insert reads its destination column from the
      first entity of the context. A `Post` whose single-valued `author` relation leads to
      `User`, where `User` alone has the `id` column, crashes when `Post` comes first,
      although the looked-up entity has the column. */
  lemma FirstEntityWitness()
    ensures var id := Field("id", "id", Primitive("int"), false, true, []);
            var author := Field("author", "author", Reference("", "User"), false, true, []);
            var userModel := Model("User", "", [], [id]);
            var postModel := Model("Post", "", [], [author]);
            var idColumn := SqlColumn(id, "id", "int", true);
            var user := SqlEntity(userModel, None, "Users", [idColumn], [], []);
            var post := SqlEntity(postModel, None, "Posts", [], [], []);
            var relation := SqlRelation(author, RelationEnd(postModel, author), RelationEnd(userModel, id), true);
            DestColumn(false, [post, user], user, relation) == Err(UndefinedRead)
            && DestColumn(true, [post, user], user, relation) == Ok(idColumn)
  {
    var id := Field("id", "id", Primitive("int"), false, true, []);
    var author := Field("author", "author", Reference("", "User"), false, true, []);
    var userModel := Model("User", "", [], [id]);
    var postModel := Model("Post", "", [], [author]);
    var idColumn := SqlColumn(id, "id", "int", true);
    var user := SqlEntity(userModel, None, "Users", [idColumn], [], []);
    var post := SqlEntity(postModel, None, "Posts", [], [], []);
    var relation := SqlRelation(author, RelationEnd(postModel, author), RelationEnd(userModel, id), true);
    assert postModel != userModel;
  }

  /** An object's insert is emitted before anything its relations add. */
  lemma ObjectRows(corrected: bool, entities: seq<SqlEntity>, s: CreateState, entity: SqlEntity, o: Value,
                   name: string, nested: seq<string>, parent: Option<ParentInfo>)
    requires name in s.tempTables && nested != [] && Join(nested, "_") == name
    ensures var r := ObjectOf(corrected, entities, s, entity, o, name, nested, parent);
            var t := s.tempTables[name];
            r.Ok? ==> OwnProperties(o).Ok?
                      && var columns := FieldColumns(entity.columns, Keys(OwnProperties(o).value));
                         var rows := InsertChunks(corrected, entities, entity, t, t.lastIndex, columns, parent);
                         rows.Ok? && s.chunks + rows.value <= r.value.chunks
  {
    ObjectOfSteps(corrected, entities, s, entity, o, name, nested, parent);
  }

  /** A single-valued relation inserts exactly the one object its property holds. */
  lemma SingleObject(relation: SqlRelation, props: Fields)
    requires !relation.field.collection
    ensures Items(RelationObjects(relation, props)) == Ok([Lookup(props, relation.field.name)])
  {
  }
}
