/** `EntityConverter`: turns the Adurc models into the SQL Server entities the driver
    works from. A first pass makes one entity per `mssql` model, named by its `entity`
    directive; a second pass gives each entity a column per primitive field and a
    relation per field that references another `mssql` model. */
module EntityConverter {
  import opened Js
  import opened Schema

  /** A column as the converter writes it. The directive arguments are copied as they
      are, so a name or type may be any value the directive holds. */
  datatype SqlColumn = SqlColumn(
    info: Field,
    columnName: Value,
    columnType: Value,
    primary: bool,
    identity: bool,
    computed: bool)

  /** A relation as the converter writes it. `joinEntity` is the position of the entity
      it leads to among the converted entities, `None` when no converted entity holds
      the referenced model. The other properties are the directive's arguments. */
  datatype SqlRelation =
    | ToOneOrMany(info: Field, kind: string, joinEntity: Option<nat>, inverseColumn: Value, joinColumn: Value)
    | ThroughTable(info: Field, joinEntity: Option<nat>, manyTableName: Value, inverseColumn: Value,
                 inverseColumnReferencedColumnName: Value, joinColumn: Value, joinColumnReferencedColumnName: Value)

  datatype SqlEntity = SqlEntity(
    info: Model,
    tableName: Value,
    schema: Value,
    database: Value,
    columns: seq<SqlColumn>,
    relations: seq<SqlRelation>)

  const RelationNames := ["manyToOne", "oneToMany", "manyToMany"]

  // ---------------------------------------------------------------- the specification

  /** `getColumnTypeFromAdurcType` */
  function ColumnType(adurcType: string): (r: Result<string>)
    ensures r.Err? ==> r.error == Raised("Adurc primitive type \"" + adurcType + "\" not implemented")
  {
    match adurcType
    case "boolean" => Ok("bit")
    case "buffer" => Ok("varbinary")
    case "date" => Ok("datetime")
    case "float" => Ok("decimal")
    case "int" => Ok("int")
    case "string" => Ok("varchar")
    case "uuid" => Ok("uniqueidentifier")
    case _ => Err(Raised("Adurc primitive type \"" + adurcType + "\" not implemented"))
  }

  /** `directives.filter(x => x.provider === 'mssql')` */
  function MssqlDirectives(directives: seq<Directive>): (r: seq<Directive>)
    ensures forall d :: d in r <==> d in directives && d.provider == "mssql"
  {
    if directives == [] then []
    else (if directives[0].provider == "mssql" then [directives[0]] else []) + MssqlDirectives(directives[1..])
  }

  /** `directives.find(x => x.name === name)` */
  function FindDirective(directives: seq<Directive>, name: string): (r: Option<Directive>)
    ensures r.Some? ==> r.value in directives && r.value.name == name
    ensures r.None? <==> forall d :: d in directives ==> d.name != name
  {
    if directives == [] then None
    else if directives[0].name == name then Some(directives[0])
    else FindDirective(directives[1..], name)
  }

  /** Like `.find`, the search returns the first matching directive. */
  lemma {:induction false} FindDirectiveFirst(directives: seq<Directive>, name: string)
    ensures var r := FindDirective(directives, name);
            r.Some? ==> exists i :: 0 <= i < |directives| && directives[i] == r.value
                                    && forall j :: 0 <= j < i ==> directives[j].name != name
  {
    if directives != [] && directives[0].name != name {
      FindDirectiveFirst(directives[1..], name);
      var r := FindDirective(directives, name);
      if r.Some? {
        var i :| 0 <= i < |directives[1..]| && directives[1..][i] == r.value
                 && forall j :: 0 <= j < i ==> directives[1..][j].name != name;
        assert directives[i + 1] == r.value;
        forall j | 0 <= j < i + 1
          ensures directives[j].name != name
        {
          if j > 0 { assert directives[j] == directives[1..][j - 1]; }
        }
      }
    } else if directives != [] {
      assert directives[0] == FindDirective(directives, name).value;
    }
  }

  /** The relation directives: `manyToOne`, `oneToMany` or `manyToMany`. */
  function RelationDirectives(directives: seq<Directive>): (r: seq<Directive>)
    ensures forall d :: d in r <==> d in directives && d.name in RelationNames
  {
    if directives == [] then []
    else (if directives[0].name in RelationNames then [directives[0]] else []) + RelationDirectives(directives[1..])
  }

  function DirectiveNames(directives: seq<Directive>): (r: seq<string>)
    ensures |r| == |directives| && forall i :: 0 <= i < |r| ==> r[i] == directives[i].name
  {
    if directives == [] then [] else [directives[0].name] + DirectiveNames(directives[1..])
  }

  /** `a ?? b` */
  function Coalesce(a: Value, b: Value): Value
  {
    if Nullish(a) then b else a
  }

  /** The first pass for one model: the table is named after the model unless the
      `entity` directive names it, and schema and database come from that directive. */
  function EntityOf(model: Model): SqlEntity
  {
    var entityDirective := FindDirective(MssqlDirectives(model.directives), "entity");
    if entityDirective.None? then SqlEntity(model, Str(model.name), Undefined, Undefined, [], [])
    else
      var args := entityDirective.value.args;
      SqlEntity(model, Coalesce(Lookup(args, "name"), Str(model.name)),
                Coalesce(Lookup(args, "schema"), Undefined), Coalesce(Lookup(args, "database"), Undefined), [], [])
  }

  /** The first pass over the first models: one entity per `mssql` model, in order. */
  function EntitiesOf(models: seq<Model>): seq<SqlEntity>
  {
    if models == [] then []
    else
      var prev := EntitiesOf(models[..|models| - 1]);
      var model := models[|models| - 1];
      if model.source != "mssql" then prev else prev + [EntityOf(model)]
  }

  /** The column of a primitive field: defaults, then the `column` directive's flags and
      its name and type when they are truthy. */
  function ColumnOf(field: Field): Result<SqlColumn>
    requires field.fieldType.Primitive?
  {
    var columnType :- ColumnType(field.fieldType.name);
    var columnDirective := FindDirective(MssqlDirectives(field.directives), "column");
    if columnDirective.None? then Ok(SqlColumn(field, Str(field.name), Str(columnType), false, false, false))
    else
      var args := columnDirective.value.args;
      var name := Lookup(args, "name");
      var sqlType := Lookup(args, "type");
      Ok(SqlColumn(field,
                   if Truthy(name) then name else Str(field.name),
                   if Truthy(sqlType) then sqlType else Str(columnType),
                   Lookup(args, "primary") == Bool(true),
                   LooseEqTrue(Lookup(args, "identity")),
                   Lookup(args, "computed") == Bool(true)))
  }

  /** `models.find(x => x.name === name)` */
  function ModelNamed(models: seq<Model>, name: string): (r: Option<Model>)
    ensures r.Some? ==> r.value in models && r.value.name == name
    ensures r.None? <==> forall m :: m in models ==> m.name != name
  {
    if models == [] then None
    else if models[0].name == name then Some(models[0])
    else ModelNamed(models[1..], name)
  }

  /** Like `.find`, the search returns the first matching model. */
  lemma {:induction false} ModelNamedFirst(models: seq<Model>, name: string)
    ensures var r := ModelNamed(models, name);
            r.Some? ==> exists i :: 0 <= i < |models| && models[i] == r.value
                                    && forall j :: 0 <= j < i ==> models[j].name != name
  {
    if models != [] && models[0].name != name {
      ModelNamedFirst(models[1..], name);
      var r := ModelNamed(models, name);
      if r.Some? {
        var i :| 0 <= i < |models[1..]| && models[1..][i] == r.value
                 && forall j :: 0 <= j < i ==> models[1..][j].name != name;
        assert models[i + 1] == r.value;
        forall j | 0 <= j < i + 1
          ensures models[j].name != name
        {
          if j > 0 { assert models[j] == models[1..][j - 1]; }
        }
      }
    } else if models != [] {
      assert models[0] == ModelNamed(models, name).value;
    }
  }

  /** `entities.find(x => x.info === model)`, as a position. */
  function EntityIndex(entities: seq<SqlEntity>, model: Model): (r: Option<nat>)
    ensures r.Some? ==> (r.value < |entities| && entities[r.value].info == model
                         && forall j :: 0 <= j < r.value ==> entities[j].info != model)
    ensures r.None? <==> forall j :: 0 <= j < |entities| ==> entities[j].info != model
  {
    if entities == [] then None
    else if entities[0].info == model then Some(0)
    else
      var rest := EntityIndex(entities[1..], model);
      if rest.None? then None else Some(rest.value + 1)
  }

  /** The relation of a reference field, `None` when the reference is to another source. */
  function RelationOf(models: seq<Model>, entities: seq<SqlEntity>, owner: Model, field: Field): Result<Option<SqlRelation>>
    requires field.fieldType.Reference?
  {
    var target := field.fieldType;
    if target.source != "mssql" then Ok(None)
    else
      var inverseModel := ModelNamed(models, target.model);
      if inverseModel.None? then Err(Raised("Model " + target.model + " not found"))
      else
        var relations := RelationDirectives(MssqlDirectives(field.directives));
        var at := "Model: " + owner.name + ", Field: " + field.name;
        if |relations| == 0 then Err(Raised(at + " - Required a relation directive"))
        else if |relations| > 1 then
          Err(Raised(at + " - Specified more than one relation [" + Join(DirectiveNames(relations), ",") + "]"))
        else
          var inverseEntity := EntityIndex(entities, inverseModel.value);
          var args := relations[0].args;
          if relations[0].name == "manyToMany" then
            Ok(Some(ThroughTable(field, inverseEntity, Lookup(args, "manyTableName"), Lookup(args, "inverseColumn"),
                               Lookup(args, "inverseColumnReferencedColumnName"), Lookup(args, "joinColumn"),
                               Lookup(args, "joinColumnReferencedColumnName"))))
          else
            Ok(Some(ToOneOrMany(field, relations[0].name, inverseEntity, Lookup(args, "inverseColumn"), Lookup(args, "joinColumn"))))
  }

  /** One field of the second pass: a column or a relation appended to the entity. */
  function FieldStep(models: seq<Model>, entities: seq<SqlEntity>, entity: SqlEntity, field: Field): (r: Result<SqlEntity>)
    ensures r.Ok? ==> r.value.(columns := entity.columns, relations := entity.relations) == entity
  {
    if field.fieldType.Primitive? then
      var column :- ColumnOf(field);
      Ok(entity.(columns := entity.columns + [column]))
    else
      var relation :- RelationOf(models, entities, entity.info, field);
      if relation.None? then Ok(entity) else Ok(entity.(relations := entity.relations + [relation.value]))
  }

  /** The second pass over the first fields of one entity. */
  function FieldsOf(models: seq<Model>, entities: seq<SqlEntity>, entity: SqlEntity, fields: seq<Field>): (r: Result<SqlEntity>)
    ensures r.Ok? ==> r.value.(columns := entity.columns, relations := entity.relations) == entity
  {
    if fields == [] then Ok(entity)
    else
      var prev :- FieldsOf(models, entities, entity, fields[..|fields| - 1]);
      FieldStep(models, entities, prev, fields[|fields| - 1])
  }

  /** The second pass over the first entities. */
  function SecondPass(models: seq<Model>, entities: seq<SqlEntity>, k: nat): Result<seq<SqlEntity>>
    requires k <= |entities|
  {
    if k == 0 then Ok([])
    else
      var prev :- SecondPass(models, entities, k - 1);
      var entity :- FieldsOf(models, entities, entities[k - 1], entities[k - 1].info.fields);
      Ok(prev + [entity])
  }

  /** `fromModels` */
  function FromModelsOf(models: seq<Model>): Result<seq<SqlEntity>>
  {
    var entities := EntitiesOf(models);
    SecondPass(models, entities, |entities|)
  }

  // ---------------------------------------------------------------- the converter

  lemma {:induction false} FieldsOfStop(models: seq<Model>, entities: seq<SqlEntity>, entity: SqlEntity, fields: seq<Field>, i: nat)
    requires i <= |fields| && FieldsOf(models, entities, entity, fields[..i]).Err?
    ensures FieldsOf(models, entities, entity, fields) == FieldsOf(models, entities, entity, fields[..i])
    decreases |fields| - i
  {
    if i == |fields| {
      assert fields[..i] == fields;
    } else {
      assert fields[..i + 1][..i] == fields[..i];
      FieldsOfStop(models, entities, entity, fields, i + 1);
    }
  }

  lemma {:induction false} SecondPassStop(models: seq<Model>, entities: seq<SqlEntity>, i: nat)
    requires i <= |entities| && SecondPass(models, entities, i).Err?
    ensures SecondPass(models, entities, |entities|) == SecondPass(models, entities, i)
    decreases |entities| - i
  {
    if i < |entities| {
      SecondPassStop(models, entities, i + 1);
    }
  }

  /** The models the entities hold, in order. */
  function Infos(entities: seq<SqlEntity>): (r: seq<Model>)
    ensures |r| == |entities| && forall j :: 0 <= j < |r| ==> r[j] == entities[j].info
  {
    if entities == [] then [] else [entities[0].info] + Infos(entities[1..])
  }

  /** Positions depend on the models the entities hold, not on their other properties. */
  lemma {:induction false} EntityIndexSameInfo(a: seq<SqlEntity>, b: seq<SqlEntity>, model: Model)
    requires Infos(a) == Infos(b)
    ensures EntityIndex(a, model) == EntityIndex(b, model)
  {
    if a != [] {
      assert Infos(a[1..]) == Infos(a)[1..] && Infos(b[1..]) == Infos(b)[1..];
      EntityIndexSameInfo(a[1..], b[1..], model);
    }
  }

  /** So the second pass reads the same positions from a list it has partly updated. */
  lemma {:induction false} FieldsOfSameInfo(models: seq<Model>, a: seq<SqlEntity>, b: seq<SqlEntity>, entity: SqlEntity, fields: seq<Field>)
    requires Infos(a) == Infos(b)
    ensures FieldsOf(models, a, entity, fields) == FieldsOf(models, b, entity, fields)
  {
    if fields != [] {
      FieldsOfSameInfo(models, a, b, entity, fields[..|fields| - 1]);
      var prev := FieldsOf(models, a, entity, fields[..|fields| - 1]);
      if prev.Ok? {
        FieldStepSameInfo(models, a, b, prev.value, fields[|fields| - 1]);
      }
    }
  }

  lemma FieldStepSameInfo(models: seq<Model>, a: seq<SqlEntity>, b: seq<SqlEntity>, entity: SqlEntity, field: Field)
    requires Infos(a) == Infos(b)
    ensures FieldStep(models, a, entity, field) == FieldStep(models, b, entity, field)
  {
    if field.fieldType.Reference? {
      RelationOfSameInfo(models, a, b, entity.info, field);
    }
  }

  lemma RelationOfSameInfo(models: seq<Model>, a: seq<SqlEntity>, b: seq<SqlEntity>, owner: Model, field: Field)
    requires Infos(a) == Infos(b) && field.fieldType.Reference?
    ensures RelationOf(models, a, owner, field) == RelationOf(models, b, owner, field)
  {
    var inverseModel := ModelNamed(models, field.fieldType.model);
    if inverseModel.Some? {
      EntityIndexSameInfo(a, b, inverseModel.value);
    }
  }

  /** Replacing an entity by one over the same model keeps the models. */
  lemma InfosUpdate(entities: seq<SqlEntity>, k: nat, entity: SqlEntity)
    requires k < |entities| && entity.info == entities[k].info
    ensures Infos(entities[k := entity]) == Infos(entities)
  {
  }

  /** `fromModels`. The entities are built in a local list and updated in place by the
      second pass; a relation refers to its target by position in that list. */
  method FromModels(models: seq<Model>) returns (r: Result<seq<SqlEntity>>)
    ensures r == FromModelsOf(models)
  {
    var entities := ConvertModels(models);
    ghost var first := entities;
    PassedStart(models, first);
    for k := 0 to |entities|
      invariant PassedTo(models, first, entities, k)
    {
      var entity := ConvertFields(models, entities, entities[k]);
      SecondPassStep(models, first, entities, k, entity);
      if entity.Err? {
        return Err(entity.error);
      }
      entities := entities[k := entity.value];
    }
    PassedDone(models, first, entities);
    return Ok(entities);
  }

  /** The state of the second pass after `k` entities: `entities` is the first pass's
      list with its first `k` entities converted, which is what the second pass yields
      on them, and the rest untouched. */
  ghost predicate PassedTo(models: seq<Model>, first: seq<SqlEntity>, entities: seq<SqlEntity>, k: nat)
  {
    k <= |first| && |entities| == |first| && Infos(entities) == Infos(first)
    && entities[k..] == first[k..] && SecondPass(models, first, k) == Ok(entities[..k])
  }

  lemma PassedStart(models: seq<Model>, first: seq<SqlEntity>)
    ensures PassedTo(models, first, first, 0)
  {
  }

  lemma PassedDone(models: seq<Model>, first: seq<SqlEntity>, entities: seq<SqlEntity>)
    requires PassedTo(models, first, entities, |first|)
    ensures SecondPass(models, first, |first|) == Ok(entities)
  {
    assert entities[..|entities|] == entities;
  }

  /** Converting the entity at `k` from the partly updated list either stops the second
      pass with its error or extends it by that entity. */
  lemma SecondPassStep(models: seq<Model>, first: seq<SqlEntity>, entities: seq<SqlEntity>, k: nat,
                       next: Result<SqlEntity>)
    requires k < |first| && PassedTo(models, first, entities, k)
    requires next == FieldsOf(models, entities, entities[k], entities[k].info.fields)
    ensures next.Err? ==> SecondPass(models, first, |first|) == Err(next.error)
    ensures next.Ok? ==> PassedTo(models, first, entities[k := next.value], k + 1)
  {
    assert entities[k] == first[k];
    FieldsOfSameInfo(models, entities, first, entities[k], entities[k].info.fields);
    if next.Err? {
      SecondPassStop(models, first, k + 1);
    } else {
      InfosUpdate(entities, k, next.value);
      SecondPassNext(models, first, entities, k, next.value);
    }
  }

  /** Storing the converted entity at `k` extends the second pass by one entity and
      leaves the entities after it as the first pass made them. */
  lemma SecondPassNext(models: seq<Model>, first: seq<SqlEntity>, entities: seq<SqlEntity>, k: nat, next: SqlEntity)
    requires k < |entities| && |entities| == |first| && entities[k..] == first[k..]
    requires SecondPass(models, first, k) == Ok(entities[..k])
    requires FieldsOf(models, first, first[k], first[k].info.fields) == Ok(next)
    ensures SecondPass(models, first, k + 1) == Ok(entities[k := next][..k + 1])
    ensures entities[k := next][k + 1..] == first[k + 1..]
  {
    assert entities[k := next][..k + 1] == entities[..k] + [next];
    assert entities[k + 1..] == entities[k..][1..];
  }

  /** The first pass of `fromModels`: one entity per `mssql` model. */
  method ConvertModels(models: seq<Model>) returns (entities: seq<SqlEntity>)
    ensures entities == EntitiesOf(models)
  {
    entities := [];
    for i := 0 to |models|
      invariant entities == EntitiesOf(models[..i])
    {
      assert models[..i + 1][..i] == models[..i];
      var model := models[i];
      if model.source != "mssql" {
        continue;
      }
      var entityDirective := FindDirective(MssqlDirectives(model.directives), "entity");
      var entity := SqlEntity(model, Str(model.name), Undefined, Undefined, [], []);
      if entityDirective.Some? {
        var args := entityDirective.value.args;
        entity := entity.(tableName := Coalesce(Lookup(args, "name"), entity.tableName));
        entity := entity.(schema := Coalesce(Lookup(args, "schema"), Undefined));
        entity := entity.(database := Coalesce(Lookup(args, "database"), Undefined));
      }
      entities := entities + [entity];
    }
    assert models[..|models|] == models;
  }

  /** The field loop of the second pass for one entity. */
  method ConvertFields(models: seq<Model>, entities: seq<SqlEntity>, entity: SqlEntity) returns (r: Result<SqlEntity>)
    ensures r == FieldsOf(models, entities, entity, entity.info.fields)
  {
    var fields := entity.info.fields;
    var current := entity;
    for i := 0 to |fields|
      invariant FieldsOf(models, entities, entity, fields[..i]) == Ok(current)
    {
      FieldsOfNext(models, entities, entity, fields, i, current);
      var next := ConvertField(models, entities, current, fields[i]);
      if next.Err? {
        FieldsOfStop(models, entities, entity, fields, i + 1);
        return Err(next.error);
      }
      current := next.value;
    }
    assert fields[..|fields|] == fields;
    return Ok(current);
  }

  lemma FieldsOfNext(models: seq<Model>, entities: seq<SqlEntity>, entity: SqlEntity, fields: seq<Field>, i: nat, current: SqlEntity)
    requires i < |fields| && FieldsOf(models, entities, entity, fields[..i]) == Ok(current)
    ensures FieldsOf(models, entities, entity, fields[..i + 1]) == FieldStep(models, entities, current, fields[i])
  {
    assert fields[..i + 1][..i] == fields[..i];
  }

  /** The body of the field loop of the second pass. */
  method ConvertField(models: seq<Model>, entities: seq<SqlEntity>, entity: SqlEntity, field: Field) returns (r: Result<SqlEntity>)
    ensures r == FieldStep(models, entities, entity, field)
  {
    var directives := MssqlDirectives(field.directives);
    if field.fieldType.Primitive? {
      var columnDirective := FindDirective(directives, "column");
      var columnType := ColumnType(field.fieldType.name);
      if columnType.Err? {
        return Err(columnType.error);
      }
      var column := SqlColumn(field, Str(field.name), Str(columnType.value), false, false, false);
      if columnDirective.Some? {
        var args := columnDirective.value.args;
        column := column.(primary := Lookup(args, "primary") == Bool(true));
        column := column.(computed := Lookup(args, "computed") == Bool(true));
        column := column.(identity := LooseEqTrue(Lookup(args, "identity")));
        if Truthy(Lookup(args, "name")) {
          column := column.(columnName := Lookup(args, "name"));
        }
        if Truthy(Lookup(args, "type")) {
          column := column.(columnType := Lookup(args, "type"));
        }
      }
      return Ok(entity.(columns := entity.columns + [column]));
    }
    var relation := RelationOf(models, entities, entity.info, field);
    if relation.Err? {
      return Err(relation.error);
    }
    if relation.value.None? {
      return Ok(entity);
    }
    return Ok(entity.(relations := entity.relations + [relation.value.value]));
  }
}
