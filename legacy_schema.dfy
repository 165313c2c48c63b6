/** The metadata that `criteria-builder.ts`, `query-print.ts`, `create-builder.ts`,
    `update-builder.ts`, `aggregate-builder.ts` and `object-expander.ts` read: entities with their columns
    and their many-to-one and one-to-many relations, each relation knowing the model
    and field at both ends, and the projection trees that code reads. */
module LegacySchema {
  import opened Js
  import opened Schema

  /** A column: the logical field, the physical name, the SQL type and whether a `pk`
      directive marks it. */
  datatype SqlColumn = SqlColumn(info: Field, name: string, columnType: string, isPrimary: bool)

  /** One end of a relation: a model and one of its fields. */
  datatype RelationEnd = RelationEnd(model: Model, field: Field)

  datatype SqlRelation = SqlRelation(field: Field, source: RelationEnd, dest: RelationEnd, nonNull: bool)

  datatype SqlEntity = SqlEntity(
    info: Model,
    schema: Option<string>,
    name: string,
    columns: seq<SqlColumn>,
    manyToOnes: seq<SqlRelation>,
    oneToManies: seq<SqlRelation>)

  /** A projection tree: a plain field, or an expansion with its arguments (`where`,
      `limit`, `offset`, `sortField`, `sortOrder`) and its own fields. */
  datatype Projection = FieldItem(name: string) | Expand(name: string, args: Value, fields: seq<Projection>)

  /** A field's type as that code reads it: the name of a primitive type or of a
      model; a reference object is no name at all. */
  function TypeText(t: FieldType): Option<string>
  {
    match t
    case Primitive(name) => Some(name)
    case Reference(_, _) => None
  }

  /** `entities.find(x => x.info === model)`: model identity is model equality here. */
  function EntityOfModel(entities: seq<SqlEntity>, model: Model): (r: Option<SqlEntity>)
    ensures r.Some? ==> r.value in entities && r.value.info == model
    ensures r.None? <==> forall x :: x in entities ==> x.info != model
  {
    if entities == [] then None
    else if entities[0].info == model then Some(entities[0])
    else EntityOfModel(entities[1..], model)
  }

  /** Like `.find`, the search returns the first matching entity. */
  lemma {:induction false} EntityOfModelFirst(entities: seq<SqlEntity>, model: Model)
    ensures var r := EntityOfModel(entities, model);
            r.Some? ==> exists i :: 0 <= i < |entities| && entities[i] == r.value
                                    && forall j :: 0 <= j < i ==> entities[j].info != model
  {
    if entities != [] && entities[0].info != model {
      EntityOfModelFirst(entities[1..], model);
      var r := EntityOfModel(entities, model);
      if r.Some? {
        var i :| 0 <= i < |entities[1..]| && entities[1..][i] == r.value
                 && forall j :: 0 <= j < i ==> entities[1..][j].info != model;
        assert entities[i + 1] == r.value;
        forall j | 0 <= j < i + 1
          ensures entities[j].info != model
        {
          if j > 0 { assert entities[j] == entities[1..][j - 1]; }
        }
      }
    } else if entities != [] {
      assert entities[0] == EntityOfModel(entities, model).value;
    }
  }

  /** `entities.find(x => x.info.name === name)` */
  function EntityNamed(entities: seq<SqlEntity>, name: string): (r: Option<SqlEntity>)
    ensures r.Some? ==> r.value in entities && r.value.info.name == name
    ensures r.None? <==> forall x :: x in entities ==> x.info.name != name
  {
    if entities == [] then None
    else if entities[0].info.name == name then Some(entities[0])
    else EntityNamed(entities[1..], name)
  }

  /** Like `.find`, the search returns the first matching entity. */
  lemma {:induction false} EntityNamedFirst(entities: seq<SqlEntity>, name: string)
    ensures var r := EntityNamed(entities, name);
            r.Some? ==> exists i :: 0 <= i < |entities| && entities[i] == r.value
                                    && forall j :: 0 <= j < i ==> entities[j].info.name != name
  {
    if entities != [] && entities[0].info.name != name {
      EntityNamedFirst(entities[1..], name);
      var r := EntityNamed(entities, name);
      if r.Some? {
        var i :| 0 <= i < |entities[1..]| && entities[1..][i] == r.value
                 && forall j :: 0 <= j < i ==> entities[1..][j].info.name != name;
        assert entities[i + 1] == r.value;
        forall j | 0 <= j < i + 1
          ensures entities[j].info.name != name
        {
          if j > 0 { assert entities[j] == entities[1..][j - 1]; }
        }
      }
    } else if entities != [] {
      assert entities[0] == EntityNamed(entities, name).value;
    }
  }

  /** `columns.find(x => x.info.name === name)` */
  function ColumnOfField(columns: seq<SqlColumn>, name: string): (r: Option<SqlColumn>)
    ensures r.Some? ==> r.value in columns && r.value.info.name == name
    ensures r.None? <==> forall x :: x in columns ==> x.info.name != name
  {
    if columns == [] then None
    else if columns[0].info.name == name then Some(columns[0])
    else ColumnOfField(columns[1..], name)
  }

  /** Like `.find`, the search returns the first matching column. */
  lemma {:induction false} ColumnOfFieldFirst(columns: seq<SqlColumn>, name: string)
    ensures var r := ColumnOfField(columns, name);
            r.Some? ==> exists i :: 0 <= i < |columns| && columns[i] == r.value
                                    && forall j :: 0 <= j < i ==> columns[j].info.name != name
  {
    if columns != [] && columns[0].info.name != name {
      ColumnOfFieldFirst(columns[1..], name);
      var r := ColumnOfField(columns, name);
      if r.Some? {
        var i :| 0 <= i < |columns[1..]| && columns[1..][i] == r.value
                 && forall j :: 0 <= j < i ==> columns[1..][j].info.name != name;
        assert columns[i + 1] == r.value;
        forall j | 0 <= j < i + 1
          ensures columns[j].info.name != name
        {
          if j > 0 { assert columns[j] == columns[1..][j - 1]; }
        }
      }
    } else if columns != [] {
      assert columns[0] == ColumnOfField(columns, name).value;
    }
  }

  /** `relations.find(x => x.field.name === name)` */
  function RelationOfField(relations: seq<SqlRelation>, name: string): (r: Option<SqlRelation>)
    ensures r.Some? ==> r.value in relations && r.value.field.name == name
    ensures r.None? <==> forall x :: x in relations ==> x.field.name != name
  {
    if relations == [] then None
    else if relations[0].field.name == name then Some(relations[0])
    else RelationOfField(relations[1..], name)
  }

  /** Like `.find`, the search returns the first matching relation. */
  lemma {:induction false} RelationOfFieldFirst(relations: seq<SqlRelation>, name: string)
    ensures var r := RelationOfField(relations, name);
            r.Some? ==> exists i :: 0 <= i < |relations| && relations[i] == r.value
                                    && forall j :: 0 <= j < i ==> relations[j].field.name != name
  {
    if relations != [] && relations[0].field.name != name {
      RelationOfFieldFirst(relations[1..], name);
      var r := RelationOfField(relations, name);
      if r.Some? {
        var i :| 0 <= i < |relations[1..]| && relations[1..][i] == r.value
                 && forall j :: 0 <= j < i ==> relations[1..][j].field.name != name;
        assert relations[i + 1] == r.value;
        forall j | 0 <= j < i + 1
          ensures relations[j].field.name != name
        {
          if j > 0 { assert relations[j] == relations[1..][j - 1]; }
        }
      }
    } else if relations != [] {
      assert relations[0] == RelationOfField(relations, name).value;
    }
  }
}
