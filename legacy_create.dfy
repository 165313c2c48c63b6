/** The create builder of `create-builder.ts` (`CreateBuilder.build`): one batch that inserts a tree of
    data objects. Every entity on a path through the tree gets a table variable named by
    that path, declared the first time it is needed, into which each insert outputs the
    object's running index and primary keys; a nested object's insert reads its parent's
    key back from the parent's table variable by that index. */
module LegacyCreate {
  import opened Js
  import opened Schema
  import opened LegacySchema
  import opened LegacyUpdate
  import opened CriteriaBuilder

  /** `CreateContextTempBuilder`: the next index to hand out, the variable's name and
      the key columns it stores. */
  datatype TempTable = TempTable(lastIndex: nat, tableName: string, pks: seq<SqlColumn>)

  /** `CreateContextBuilder`: the table variables by name, the batch, the parameters. */
  datatype CreateState = CreateState(tempTables: map<string, TempTable>, chunks: seq<string>, params: Fields)

  /** `CreateContextParentInfo`: the parent's table variable, the parent's index in it,
      and the relation followed from the parent. */
  datatype ParentInfo = ParentInfo(tableName: string, index: nat, relation: SqlRelation)

  const Empty := CreateState(map[], [], [])

  /** A measure on values that shrinks from an object to the value of any of its
      properties, and from an array to any of its items. */
  function Size(v: Value): nat
  {
    match v
    case Arr(items) => 1 + SizeAll(items)
    case Obj(fields) => 3 + SizeFields(fields)
    case _ => 1
  }

  function SizeAll(items: seq<Value>): nat
  {
    if items == [] then 0 else Size(items[0]) + SizeAll(items[1..])
  }

  function SizeFields(fields: Fields): nat
  {
    if fields == [] then 0
    else
      assert fields[0] in fields;
      var p := fields[0];
      assert p.1 < p;
      Size(p.1) + SizeFields(fields[1..])
  }

  /** `${pathSlash}${entity.info.name}`: the path joined by `_`, then `_`, then the
      entity's name. */
  function TableName(path: seq<string>, entity: SqlEntity): string
  {
    (if |path| > 0 then Join(path, "_") + "_" else "") + entity.info.name
  }

  /** `${x.info.name} ${printSqlType(x.type)}` for each key column. */
  function KeyFields(pks: seq<SqlColumn>): (r: seq<string>)
    ensures |r| == |pks| && forall i :: 0 <= i < |r| ==> r[i] == pks[i].info.name + " " + PrintSqlType(pks[i].columnType)
  {
    if pks == [] then [] else KeyFields(pks[..|pks| - 1]) + [pks[|pks| - 1].info.name + " " + PrintSqlType(pks[|pks| - 1].columnType)]
  }

  /** `[${c.info.name}]` for each key column. */
  function KeyTargets(pks: seq<SqlColumn>): (r: seq<string>)
    ensures |r| == |pks| && forall i :: 0 <= i < |r| ==> r[i] == "[" + pks[i].info.name + "]"
  {
    if pks == [] then [] else KeyTargets(pks[..|pks| - 1]) + ["[" + pks[|pks| - 1].info.name + "]"]
  }

  /** The declaration of a table variable: the object index, then the key columns. */
  function Declaration(name: string, pks: seq<SqlColumn>): string
  {
    "DECLARE @" + name + " As table (__index int, " + Join(KeyFields(pks), ", ") + ")"
  }

  /** The table variable of `name` exists afterwards; it is created, with index 0, and
      declared only when it did not exist before. */
  function Declared(s: CreateState, name: string, entity: SqlEntity): (r: CreateState)
    ensures name in r.tempTables && r.params == s.params
    ensures name in s.tempTables ==> r == s
    ensures name !in s.tempTables ==>
              r.tempTables == s.tempTables[name := TempTable(0, name, KeyColumns(entity.columns))]
              && r.chunks == s.chunks + [Declaration(name, KeyColumns(entity.columns))]
  {
    if name in s.tempTables then s
    else
      var pks := KeyColumns(entity.columns);
      s.(tempTables := s.tempTables[name := TempTable(0, name, pks)], chunks := s.chunks + [Declaration(name, pks)])
  }

  /** `tempTable.lastIndex++` on the table variable of `name`. */
  function Bump(tables: map<string, TempTable>, name: string): (r: map<string, TempTable>)
    requires name in tables
    ensures r.Keys == tables.Keys
  {
    tables[name := tables[name].(lastIndex := tables[name].lastIndex + 1)]
  }

  /** `fields.map(c => entity.columns.find(o => o.info.name === c)).filter(c => c !== undefined)` */
  function FieldColumns(columns: seq<SqlColumn>, names: seq<string>): (r: seq<SqlColumn>)
    ensures |r| <= |names|
    ensures forall c :: c in r <==> exists n :: n in names && ColumnOfField(columns, n) == Some(c)
  {
    if names == [] then []
    else
      var init := names[..|names| - 1];
      var column := ColumnOfField(columns, names[|names| - 1]);
      assert forall n :: n in names <==> n in init || n == names[|names| - 1];
      FieldColumns(columns, init) + (if column.Some? then [column.value] else [])
  }

  /** The relation a property follows: a many-to-one of that name first, else a
      one-to-many of that name. */
  function RelationOfProperty(entity: SqlEntity, name: string): (r: Option<SqlRelation>)
    ensures r.Some? ==> r.value.field.name == name && (r.value in entity.manyToOnes || r.value in entity.oneToManies)
    ensures r.None? <==> RelationOfField(entity.manyToOnes, name).None? && RelationOfField(entity.oneToManies, name).None?
    ensures RelationOfField(entity.manyToOnes, name).Some? ==> r == RelationOfField(entity.manyToOnes, name)
  {
    var many := RelationOfField(entity.manyToOnes, name);
    if many.Some? then many else RelationOfField(entity.oneToManies, name)
  }

  /** The property names that name a relation of `entity`, in property order. */
  function RelatedNames(entity: SqlEntity, names: seq<string>): (r: seq<string>)
    ensures |r| <= |names|
    ensures forall n :: n in r <==> n in names && RelationOfProperty(entity, n).Some?
  {
    if names == [] then []
    else
      var init := names[..|names| - 1];
      assert forall n :: n in names <==> n in init || n == names[|names| - 1];
      RelatedNames(entity, init) + (if RelationOfProperty(entity, names[|names| - 1]).Some? then [names[|names| - 1]] else [])
  }

  /** `fields.map(c => manyToOne ?? oneToMany).filter(c => c !== undefined)` */
  function FieldRelations(entity: SqlEntity, names: seq<string>): (r: seq<SqlRelation>)
    ensures |r| <= |names|
    ensures forall x :: x in r ==> x.field.name in names
    ensures |r| == |RelatedNames(entity, names)|
    ensures forall k :: 0 <= k < |r| ==> Some(r[k]) == RelationOfProperty(entity, RelatedNames(entity, names)[k])
    ensures forall n :: n in names && RelationOfProperty(entity, n).Some? ==> RelationOfProperty(entity, n).value in r
  {
    if names == [] then []
    else
      var init := names[..|names| - 1];
      var relation := RelationOfProperty(entity, names[|names| - 1]);
      FieldRelations(entity, init) + (if relation.Some? then [relation.value] else [])
  }

  /** `item_${index}_${entity.info.name}_${c.info.name}` */
  function ParamName(index: nat, entity: SqlEntity, column: SqlColumn): string
  {
    "item_" + NatToString(index) + "_" + entity.info.name + "_" + column.info.name
  }

  /** `@item_…` for each column, in order. */
  function Vars(index: nat, entity: SqlEntity, columns: seq<SqlColumn>): (r: seq<string>)
    ensures |r| == |columns| && forall i :: 0 <= i < |r| ==> r[i] == "@" + ParamName(index, entity, columns[i])
  {
    if columns == [] then [] else Vars(index, entity, columns[..|columns| - 1]) + ["@" + ParamName(index, entity, columns[|columns| - 1])]
  }

  /** `columns.forEach(c => params[item_…] = object[c.info.name])` */
  function BindParams(params: Fields, index: nat, entity: SqlEntity, columns: seq<SqlColumn>, props: Fields): Fields
  {
    if columns == [] then params
    else
      var last := columns[|columns| - 1];
      Put(BindParams(params, index, entity, columns[..|columns| - 1], props), ParamName(index, entity, last), Lookup(props, last.info.name))
  }

  /** `${entity.schema}`: an absent schema prints as `undefined`. */
  function SchemaText(schema: Option<string>): string
  {
    if schema.Some? then schema.value else "undefined"
  }

  function InsertInto(entity: SqlEntity): string
  {
    "INSERT INTO [" + SchemaText(entity.schema) + "].[" + entity.name + "] WITH(ROWLOCK)"
  }

  /** `OUTPUT <index>, INSERTED.[<key>], … INTO @<table>(__index, [<key field>], …)` */
  function OutputChunk(t: TempTable, index: nat): string
  {
    "OUTPUT " + NatToString(index) + ", " + Join(InsertedKeys(t.pks), ", ")
    + " INTO @" + t.tableName + "(__index, " + Join(KeyTargets(t.pks), ", ") + ")"
  }

  /** `entities.find(() => true)`: the first entity, whatever it is. */
  function FirstEntity(entities: seq<SqlEntity>): (r: Option<SqlEntity>)
    ensures r.Some? <==> entities != []
    ensures r.Some? ==> r.value == entities[0]
  {
    if entities == [] then None else Some(entities[0])
  }

  /** The column of the inserted entity that takes the parent's key. As written, a
      single-valued relation reads it from `destEntity`, the first entity of the context,
      because the `find` predicate compares the relation's model with itself; `corrected`
      looks `destEntity` up by the relation's destination model instead. */
  function DestColumn(corrected: bool, entities: seq<SqlEntity>, entity: SqlEntity, relation: SqlRelation): Result<SqlColumn>
  {
    var destEntity := if corrected then EntityOfModel(entities, relation.dest.model) else FirstEntity(entities);
    var column :=
      if relation.field.collection then ColumnOfField(entity.columns, relation.dest.field.name)
      else if destEntity.None? then None
      else ColumnOfField(destEntity.value.columns, relation.dest.field.name);
    if column.None? then Err(UndefinedRead) else Ok(column.value)
  }

  /** The four lines that insert one object: a root object's values come from its
      parameters, a nested object's from its parameters and its parent's key. */
  function InsertChunks(corrected: bool, entities: seq<SqlEntity>, entity: SqlEntity, t: TempTable, index: nat,
                        columns: seq<SqlColumn>, parent: Option<ParentInfo>): Result<seq<string>>
  {
    var vars := Join(Vars(index, entity, columns), ",");
    if parent.None? then
      Ok([InsertInto(entity), "(" + Join(Bracketed(columns), ", ") + ")", OutputChunk(t, index), "VALUES (" + vars + ")"])
    else
      var p := parent.value;
      var destColumn :- DestColumn(corrected, entities, entity, p.relation);
      Ok([InsertInto(entity), "([" + destColumn.name + "]," + Join(Bracketed(columns), ", ") + ")", OutputChunk(t, index),
          "SELECT t.[" + p.relation.source.field.name + "], " + vars + " FROM @" + p.tableName + " AS t WHERE __index = " + NatToString(p.index)])
  }

  /** `objects[i]` for `i < objects.length`: an array's items or a string's characters;
      reading the length of `undefined` or `null` crashes; any other value has none. */
  function Items(objects: Value): Result<seq<Value>>
  {
    match objects
    case Undefined => Err(UndefinedRead)
    case Null => Err(TypeError("Cannot read properties of null"))
    case Arr(items) => Ok(items)
    case Str(s) => Ok(seq(|s|, i requires 0 <= i < |s| => Str([s[i]])))
    case _ => Ok([])
  }

  /** The objects a relation's property holds: the value itself for a collection,
      else the value wrapped in a one-element list. */
  function RelationObjects(relation: SqlRelation, props: Fields): (r: Value)
    ensures !relation.field.collection ==> r == Arr([Lookup(props, relation.field.name)])
    ensures relation.field.collection ==> r == Lookup(props, relation.field.name)
  {
    var value := Lookup(props, relation.field.name);
    if relation.field.collection then value else Arr([value])
  }

  /** The table variables whose names are shorter than `n`. */
  function Short(tables: map<string, TempTable>, n: nat): map<string, TempTable>
  {
    map key | key in tables && |key| < n :: tables[key]
  }

  /** The table variables of names shorter than `n` are the same in `a` and `b`. */
  predicate Keeps(a: map<string, TempTable>, b: map<string, TempTable>, n: nat)
  {
    Short(a, n) == Short(b, n)
  }

  /** The batch only grows and no table variable disappears. */
  predicate Grows(a: CreateState, b: CreateState)
  {
    a.chunks <= b.chunks && a.tempTables.Keys <= b.tempTables.Keys
  }

  /** `buildModel`: declares the path's table variable when it is new, then inserts the
      objects in order. It leaves every shorter table variable alone, and hands out one
      index per object from its own. */
  function ModelOf(corrected: bool, entities: seq<SqlEntity>, s: CreateState, entity: SqlEntity, objects: Value,
                   path: seq<string>, parent: Option<ParentInfo>): (r: Result<CreateState>)
    ensures r.Ok? ==> Grows(s, r.value)
    decreases Size(objects), 3
  {
    var name := TableName(path, entity);
    var declared := Declared(s, name, entity);
    var items :- Items(objects);
    ItemsSmaller(objects);
    JoinSnoc(path, entity.info.name, "_");
    ModelFrom(corrected, entities, declared, entity, objects, items, 0, name, path + [entity.info.name], parent)
  }

  /** The loop of `buildModel` from the `i`-th object on. */
  function ModelFrom(corrected: bool, entities: seq<SqlEntity>, s: CreateState, entity: SqlEntity, objects: Value,
                     items: seq<Value>, i: nat, name: string, nested: seq<string>, parent: Option<ParentInfo>): (r: Result<CreateState>)
    requires i <= |items| && name in s.tempTables && nested != [] && Join(nested, "_") == name
    requires forall j :: 0 <= j < |items| ==> Size(items[j]) <= Size(objects)
    ensures r.Ok? ==> Grows(s, r.value)
    decreases Size(objects), 2, |items| - i
  {
    if i == |items| then Ok(s)
    else
      var next :- ObjectOf(corrected, entities, s, entity, items[i], name, nested, parent);
      ModelFrom(corrected, entities, next, entity, objects, items, i + 1, name, nested, parent)
  }

  /** `buildModelObject`: takes the next index of its table variable, binds a parameter
      per column property, inserts the object, then follows each relation property. Only
      its own table variable and longer-named ones change. */
  function ObjectOf(corrected: bool, entities: seq<SqlEntity>, s: CreateState, entity: SqlEntity, o: Value,
                    name: string, nested: seq<string>, parent: Option<ParentInfo>): (r: Result<CreateState>)
    requires name in s.tempTables && nested != [] && Join(nested, "_") == name
    ensures r.Ok? ==> Grows(s, r.value)
    decreases Size(o), 1
  {
    var t := s.tempTables[name];
    var index := t.lastIndex;
    var props :- OwnProperties(o);
    var columns := FieldColumns(entity.columns, Keys(props));
    var relations := FieldRelations(entity, Keys(props));
    var rows :- InsertChunks(corrected, entities, entity, t, index, columns, parent);
    var inserted := CreateState(Bump(s.tempTables, name), s.chunks + rows, BindParams(s.params, index, entity, columns, props));
    RelationsFrom(corrected, entities, inserted, o, props, relations, 0, nested, t.tableName, index)
  }

  /** The loop over the relation properties of one object, from the `k`-th on. */
  function RelationsFrom(corrected: bool, entities: seq<SqlEntity>, s: CreateState, o: Value, props: Fields,
                         relations: seq<SqlRelation>, k: nat, nested: seq<string>, tableName: string, index: nat): (r: Result<CreateState>)
    requires k <= |relations| && nested != []
    requires relations == [] || (o.Obj? && props == o.fields)
    ensures r.Ok? ==> Grows(s, r.value)
    decreases Size(o), 0, |relations| - k
  {
    if k == |relations| then Ok(s)
    else
      var relation := relations[k];
      var entityRel := EntityOfModel(entities, relation.dest.model);
      if entityRel.None? then Err(UndefinedRead)
      else
        var objects := RelationObjects(relation, props);
        RelationObjectsSmaller(relation, o.fields);
        var next :- ModelOf(corrected, entities, s, entityRel.value, objects, nested, Some(ParentInfo(tableName, index, relation)));
        RelationsFrom(corrected, entities, next, o, props, relations, k + 1, nested, tableName, index)
  }

  /** What `buildModelObject` does once the object's index is taken and its properties
      read: the INSERT chunks and parameters, then the relation properties. */
  function InsertedThen(corrected: bool, entities: seq<SqlEntity>, s: CreateState, entity: SqlEntity, o: Value,
                        props: Fields, t: TempTable, nested: seq<string>, parent: Option<ParentInfo>): Result<CreateState>
    requires nested != [] && (FieldRelations(entity, Keys(props)) == [] || (o.Obj? && props == o.fields))
  {
    var columns := FieldColumns(entity.columns, Keys(props));
    var rows :- InsertChunks(corrected, entities, entity, t, t.lastIndex, columns, parent);
    var inserted := CreateState(s.tempTables, s.chunks + rows, BindParams(s.params, t.lastIndex, entity, columns, props));
    RelationsFrom(corrected, entities, inserted, o, props, FieldRelations(entity, Keys(props)), 0, nested, t.tableName, t.lastIndex)
  }

  /** `CreateBuilder.build`: the root objects inserted along the empty path. */
  function CreateOf(corrected: bool, entities: seq<SqlEntity>, entity: SqlEntity, objects: seq<Value>): Result<CreateState>
  {
    ModelOf(corrected, entities, Empty, entity, Arr(objects), [], None)
  }

  /** `CreateContextBuilder` as `build` fills it in place. */
  class CreateOutput {
    var tempTables: map<string, TempTable>
    var chunks: seq<string>
    var params: Fields

    function State(): CreateState
      reads this
    {
      CreateState(tempTables, chunks, params)
    }

    constructor ()
      ensures State() == Empty
    {
      tempTables := map[];
      chunks := [];
      params := [];
    }

    /** `buildModel`: on success the output is the state `ModelOf` describes; on failure
        the error is the one `ModelOf` throws. */
    method BuildModel(corrected: bool, entities: seq<SqlEntity>, entity: SqlEntity, objects: Value,
                      path: seq<string>, parent: Option<ParentInfo>) returns (error: Option<Failure>)
      modifies this
      ensures var r := ModelOf(corrected, entities, old(State()), entity, objects, path, parent);
              if r.Ok? then error.None? && State() == r.value else error == Some(r.error)
      decreases Size(objects), 3
    {
      ModelOfSteps(corrected, entities, State(), entity, objects, path, parent);
      var name := TableName(path, entity);
      Declare(name, entity);
      var items := Items(objects);
      if items.Err? {
        return Some(items.error);
      }
      error := InsertAll(corrected, entities, entity, objects, items.value, name, path + [entity.info.name], parent);
    }

    /** The declaration step of `buildModel`. */
    method Declare(name: string, entity: SqlEntity)
      modifies this
      ensures State() == Declared(old(State()), name, entity)
    {
      if name !in tempTables {
        var pks := KeyColumns(entity.columns);
        tempTables := tempTables[name := TempTable(0, name, pks)];
        chunks := chunks + [Declaration(name, pks)];
      }
    }

    /** The loop of `buildModel` over the objects. */
    method InsertAll(corrected: bool, entities: seq<SqlEntity>, entity: SqlEntity, objects: Value, items: seq<Value>,
                     name: string, nested: seq<string>, parent: Option<ParentInfo>) returns (error: Option<Failure>)
      requires name in tempTables && nested != [] && Join(nested, "_") == name
      requires forall j :: 0 <= j < |items| ==> Size(items[j]) <= Size(objects)
      modifies this
      ensures var r := ModelFrom(corrected, entities, old(State()), entity, objects, items, 0, name, nested, parent);
              if r.Ok? then error.None? && State() == r.value else error == Some(r.error)
      decreases Size(objects), 2
    {
      ghost var start := State();
      var i := 0;
      while i < |items|
        invariant i <= |items| && name in tempTables
        invariant ModelFrom(corrected, entities, start, entity, objects, items, 0, name, nested, parent)
                  == ModelFrom(corrected, entities, State(), entity, objects, items, i, name, nested, parent)
      {
        ghost var before := State();
        error := InsertItem(corrected, entities, entity, objects, items, i, name, nested, parent);
        if error.Some? {
          assert ModelFrom(corrected, entities, before, entity, objects, items, i, name, nested, parent) == Err(error.value);
          return;
        }
        i := i + 1;
      }
      assert ModelFrom(corrected, entities, State(), entity, objects, items, i, name, nested, parent) == Ok(State());
      return None;
    }

    /** One pass of the loop of `buildModel`: the `i`-th object. */
    method InsertItem(corrected: bool, entities: seq<SqlEntity>, entity: SqlEntity, objects: Value, items: seq<Value>,
                      i: nat, name: string, nested: seq<string>, parent: Option<ParentInfo>) returns (error: Option<Failure>)
      requires i < |items| && name in tempTables && nested != [] && Join(nested, "_") == name
      requires forall j :: 0 <= j < |items| ==> Size(items[j]) <= Size(objects)
      modifies this
      ensures error.None? ==> name in tempTables
      ensures var r := ModelFrom(corrected, entities, old(State()), entity, objects, items, i, name, nested, parent);
              if error.Some? then r == Err(error.value)
              else r == ModelFrom(corrected, entities, State(), entity, objects, items, i + 1, name, nested, parent)
      decreases Size(objects), 1, 1
    {
      ModelFromStep(corrected, entities, State(), entity, objects, items, i, name, nested, parent);
      error := BuildModelObject(corrected, entities, entity, items[i], name, nested, parent);
    }

    /** `buildModelObject`, with the object's table variable given by name. */
    method BuildModelObject(corrected: bool, entities: seq<SqlEntity>, entity: SqlEntity, item: Value,
                            name: string, path: seq<string>, parent: Option<ParentInfo>) returns (error: Option<Failure>)
      requires name in tempTables && path != [] && Join(path, "_") == name
      modifies this
      ensures var r := ObjectOf(corrected, entities, old(State()), entity, item, name, path, parent);
              if r.Ok? then error.None? && State() == r.value else error == Some(r.error)
      decreases Size(item), 1, 0
    {
      ghost var start := State();
      var tempTable := tempTables[name];
      var index := tempTable.lastIndex;
      tempTables := tempTables[name := tempTable.(lastIndex := index + 1)];
      assert tempTables == Bump(start.tempTables, name);
      var props := OwnProperties(item);
      if props.Err? {
        assert ObjectOf(corrected, entities, start, entity, item, name, path, parent) == Err(props.error);
        return Some(props.error);
      }
      ObjectOfInsert(corrected, entities, start, entity, item, name, path, parent, props.value);
      assert State() == CreateState(Bump(start.tempTables, name), start.chunks, start.params);
      error := InsertObject(corrected, entities, entity, item, props.value, tempTable, path, parent);
    }

    /** The rest of `buildModelObject` once the index is taken: the parameters, the
        INSERT chunks, then the relation properties. */
    method InsertObject(corrected: bool, entities: seq<SqlEntity>, entity: SqlEntity, item: Value, props: Fields,
                        t: TempTable, path: seq<string>, parent: Option<ParentInfo>) returns (error: Option<Failure>)
      requires path != []
      requires FieldRelations(entity, Keys(props)) == [] || (item.Obj? && props == item.fields)
      modifies this
      ensures var r := InsertedThen(corrected, entities, old(State()), entity, item, props, t, path, parent);
              if r.Ok? then error.None? && State() == r.value else error == Some(r.error)
      decreases Size(item), 0, 1
    {
      var fields := Keys(props);
      var columns := FieldColumns(entity.columns, fields);
      BindColumns(t.lastIndex, entity, columns, props);
      var relations := FieldRelations(entity, fields);
      var rows := InsertChunks(corrected, entities, entity, t, t.lastIndex, columns, parent);
      if rows.Err? {
        return Some(rows.error);
      }
      chunks := chunks + rows.value;
      error := FollowRelations(corrected, entities, item, props, relations, path, t.tableName, t.lastIndex);
    }

    /** `columns.forEach(…)`: one parameter per column property. */
    method BindColumns(index: nat, entity: SqlEntity, columns: seq<SqlColumn>, props: Fields)
      modifies this
      ensures params == BindParams(old(params), index, entity, columns, props)
      ensures tempTables == old(tempTables) && chunks == old(chunks)
    {
      for j := 0 to |columns|
        invariant params == BindParams(old(params), index, entity, columns[..j], props)
        invariant tempTables == old(tempTables) && chunks == old(chunks)
      {
        assert columns[..j + 1][..j] == columns[..j];
        params := Put(params, ParamName(index, entity, columns[j]), Lookup(props, columns[j].info.name));
      }
      assert columns[..|columns|] == columns;
    }

    /** The loop of `buildModelObject` over its relation properties. */
    method FollowRelations(corrected: bool, entities: seq<SqlEntity>, item: Value, props: Fields, relations: seq<SqlRelation>,
                           path: seq<string>, tableName: string, index: nat) returns (error: Option<Failure>)
      requires path != [] && (relations == [] || (item.Obj? && props == item.fields))
      modifies this
      ensures var r := RelationsFrom(corrected, entities, old(State()), item, props, relations, 0, path, tableName, index);
              if r.Ok? then error.None? && State() == r.value else error == Some(r.error)
      decreases Size(item), 0, 0
    {
      ghost var start := State();
      for k := 0 to |relations|
        invariant RelationsFrom(corrected, entities, start, item, props, relations, 0, path, tableName, index)
                  == RelationsFrom(corrected, entities, State(), item, props, relations, k, path, tableName, index)
      {
        RelationsStep(corrected, entities, State(), item, props, relations, k, path, tableName, index);
        var relation := relations[k];
        var entityRel := EntityOfModel(entities, relation.dest.model);
        if entityRel.None? {
          return Some(UndefinedRead);
        }
        var objects := RelationObjects(relation, props);
        RelationObjectsSmaller(relation, item.fields);
        error := BuildModel(corrected, entities, entityRel.value, objects, path, Some(ParentInfo(tableName, index, relation)));
        if error.Some? {
          return;
        }
      }
      return None;
    }
  }

  /** `CreateBuilder.build`: a fresh output holding what `CreateOf` describes, or the
      error `CreateOf` throws. */
  method Build(corrected: bool, entities: seq<SqlEntity>, entity: SqlEntity, objects: seq<Value>) returns (r: Result<CreateOutput>)
    ensures CreateOf(corrected, entities, entity, objects).Ok? ==>
              r.Ok? && fresh(r.value) && r.value.State() == CreateOf(corrected, entities, entity, objects).value
    ensures CreateOf(corrected, entities, entity, objects).Err? ==> r == Err(CreateOf(corrected, entities, entity, objects).error)
  {
    var output := new CreateOutput();
    var error := output.BuildModel(corrected, entities, entity, Arr(objects), [], None);
    if error.Some? {
      return Err(error.value);
    }
    return Ok(output);
  }

  /** `ModelOf` step by step: the declaration, the objects, then the loop over them. */
  lemma ModelOfSteps(corrected: bool, entities: seq<SqlEntity>, s: CreateState, entity: SqlEntity, objects: Value,
                     path: seq<string>, parent: Option<ParentInfo>)
    ensures Join(path + [entity.info.name], "_") == TableName(path, entity)
    ensures Items(objects).Ok? ==> forall j :: 0 <= j < |Items(objects).value| ==> Size(Items(objects).value[j]) <= Size(objects)
    ensures var name := TableName(path, entity);
            var r := ModelOf(corrected, entities, s, entity, objects, path, parent);
            if Items(objects).Err? then r == Err(Items(objects).error)
            else r == ModelFrom(corrected, entities, Declared(s, name, entity), entity, objects, Items(objects).value, 0,
                                name, path + [entity.info.name], parent)
  {
    JoinSnoc(path, entity.info.name, "_");
    ItemsSmaller(objects);
  }

  /** One pass of the loop over the objects. */
  lemma ModelFromStep(corrected: bool, entities: seq<SqlEntity>, s: CreateState, entity: SqlEntity, objects: Value,
                      items: seq<Value>, i: nat, name: string, nested: seq<string>, parent: Option<ParentInfo>)
    requires i < |items| && name in s.tempTables && nested != [] && Join(nested, "_") == name
    requires forall j :: 0 <= j < |items| ==> Size(items[j]) <= Size(objects)
    ensures var next := ObjectOf(corrected, entities, s, entity, items[i], name, nested, parent);
            var r := ModelFrom(corrected, entities, s, entity, objects, items, i, name, nested, parent);
            (next.Ok? ==> name in next.value.tempTables)
            && r == if next.Err? then Err(next.error)
                    else ModelFrom(corrected, entities, next.value, entity, objects, items, i + 1, name, nested, parent)
  {
  }

  /** `ObjectOf` step by step: the properties, the insert, then the relations. */
  lemma ObjectOfSteps(corrected: bool, entities: seq<SqlEntity>, s: CreateState, entity: SqlEntity, o: Value,
                      name: string, nested: seq<string>, parent: Option<ParentInfo>)
    requires name in s.tempTables && nested != [] && Join(nested, "_") == name
    ensures var t := s.tempTables[name];
            var props := OwnProperties(o);
            var r := ObjectOf(corrected, entities, s, entity, o, name, nested, parent);
            if props.Err? then r == Err(props.error)
            else
              var columns := FieldColumns(entity.columns, Keys(props.value));
              var rows := InsertChunks(corrected, entities, entity, t, t.lastIndex, columns, parent);
              if rows.Err? then r == Err(rows.error)
              else
                var inserted := CreateState(Bump(s.tempTables, name), s.chunks + rows.value,
                                            BindParams(s.params, t.lastIndex, entity, columns, props.value));
                r == RelationsFrom(corrected, entities, inserted, o, props.value, FieldRelations(entity, Keys(props.value)),
                                   0, nested, t.tableName, t.lastIndex)
  {
  }

  /** `ObjectOf` once the properties are read: the index taken, then the rest. */
  lemma ObjectOfInsert(corrected: bool, entities: seq<SqlEntity>, s: CreateState, entity: SqlEntity, o: Value,
                       name: string, nested: seq<string>, parent: Option<ParentInfo>, props: Fields)
    requires name in s.tempTables && nested != [] && Join(nested, "_") == name
    requires OwnProperties(o) == Ok(props)
    ensures FieldRelations(entity, Keys(props)) == [] || (o.Obj? && props == o.fields)
    ensures ObjectOf(corrected, entities, s, entity, o, name, nested, parent)
      == InsertedThen(corrected, entities, CreateState(Bump(s.tempTables, name), s.chunks, s.params), entity, o, props,
                      s.tempTables[name], nested, parent)
  {
  }

  /** One pass of the loop over the relation properties. */
  lemma RelationsStep(corrected: bool, entities: seq<SqlEntity>, s: CreateState, o: Value, props: Fields,
                      relations: seq<SqlRelation>, k: nat, nested: seq<string>, tableName: string, index: nat)
    requires k < |relations| && nested != []
    requires o.Obj? && props == o.fields
    ensures var relation := relations[k];
            var entityRel := EntityOfModel(entities, relation.dest.model);
            var r := RelationsFrom(corrected, entities, s, o, props, relations, k, nested, tableName, index);
            if entityRel.None? then r == Err(UndefinedRead)
            else
              var next := ModelOf(corrected, entities, s, entityRel.value, RelationObjects(relation, props), nested,
                                  Some(ParentInfo(tableName, index, relation)));
              r == if next.Err? then Err(next.error)
                   else RelationsFrom(corrected, entities, next.value, o, props, relations, k + 1, nested, tableName, index)
  {
  }

  /** Joining one more part appends the separator and the part. */
  lemma {:induction false} JoinSnoc(parts: seq<string>, part: string, sep: string)
    ensures Join(parts + [part], sep) == (if parts == [] then part else Join(parts, sep) + sep + part)
  {
    if |parts| > 1 {
      assert (parts + [part])[1..] == parts[1..] + [part];
      JoinSnoc(parts[1..], part, sep);
    } else if |parts| == 1 {
      assert parts + [part] == [parts[0], part];
    }
  }

  lemma {:induction false} SizeAllItem(items: seq<Value>, i: nat)
    requires i < |items|
    ensures Size(items[i]) <= SizeAll(items)
  {
    if i > 0 {
      SizeAllItem(items[1..], i - 1);
    }
  }

  /** Every object a value holds is no larger than the value. */
  lemma ItemsSmaller(objects: Value)
    ensures Items(objects).Ok? ==> forall j :: 0 <= j < |Items(objects).value| ==> Size(Items(objects).value[j]) <= Size(objects)
  {
    if objects.Arr? {
      forall j | 0 <= j < |objects.items|
        ensures Size(objects.items[j]) <= Size(objects)
      {
        SizeAllItem(objects.items, j);
      }
    }
  }

  lemma {:induction false} LookupSmaller(fields: Fields, key: string)
    ensures Size(Lookup(fields, key)) <= SizeFields(fields) + 1
  {
    if fields != [] && fields[0].0 != key {
      LookupSmaller(fields[1..], key);
    }
  }

  /** The objects a relation property holds are smaller than the object holding it. */
  lemma RelationObjectsSmaller(relation: SqlRelation, fields: Fields)
    ensures Size(RelationObjects(relation, fields)) < Size(Obj(fields))
  {
    LookupSmaller(fields, relation.field.name);
    var value := Lookup(fields, relation.field.name);
    assert SizeAll([value]) == Size(value);
  }
}
