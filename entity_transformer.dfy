/** The schema transformer of `entity-transformer.ts`: a model becomes an entity with columns, many-to-one
    relations and one-to-many relations, a field being a relation when its type names a
    known model. */
module EntityTransformer {
  import opened Js
  import opened Schema
  import opened LegacySchema
  import EntityConverter

  /** `columnTypeFromDataType`; a field whose type is not a name shows as `[object Object]`. */
  function ColumnTypeFromDataType(dataType: Option<string>): (r: Result<string>)
    ensures r.Err? ==> r.error == Raised("Unknown primitive type " + (if dataType.Some? then dataType.value else "[object Object]"))
  {
    var text := if dataType.Some? then dataType.value else "[object Object]";
    match dataType
    case Some("string") => Ok("varchar")
    case Some("boolean") => Ok("tinyint")
    case Some("float") => Ok("decimal")
    case Some("int") => Ok("int")
    case Some("uuid") => Ok("uniqueidentifier")
    case Some("date") => Ok("datetime")
    case Some("buffer") => Ok("varbinary")
    case _ => Err(Raised("Unknown primitive type " + text))
  }

  /** `columnTransformFromField`: the `column` directive's name and type when truthy,
      otherwise the field's name and mapped type; primary iff a `pk` directive exists. */
  function ColumnFromField(field: Field): Result<SqlColumn>
  {
    var column := EntityConverter.FindDirective(field.directives, "column");
    var pk := EntityConverter.FindDirective(field.directives, "pk");
    var name := if column.Some? && Truthy(Lookup(column.value.args, "name")) then JsString(Lookup(column.value.args, "name")) else field.name;
    if column.Some? && Truthy(Lookup(column.value.args, "type")) then
      Ok(SqlColumn(field, name, JsString(Lookup(column.value.args, "type")), pk.Some?))
    else
      var columnType :- ColumnTypeFromDataType(TypeText(field.fieldType));
      Ok(SqlColumn(field, name, columnType, pk.Some?))
  }

  /** `fields.find(x => x.name === value)` for a directive argument of any type. */
  function FieldNamed(fields: seq<Field>, value: Value): (r: Option<Field>)
    ensures r.Some? ==> r.value in fields && Str(r.value.name) == value
    ensures r.None? <==> forall f :: f in fields ==> Str(f.name) != value
  {
    if fields == [] then None
    else if Str(fields[0].name) == value then Some(fields[0])
    else FieldNamed(fields[1..], value)
  }

  /** Like `.find`, the search returns the first matching field. */
  lemma {:induction false} FieldNamedFirst(fields: seq<Field>, value: Value)
    ensures var r := FieldNamed(fields, value);
            r.Some? ==> exists i :: 0 <= i < |fields| && fields[i] == r.value
                                    && forall j :: 0 <= j < i ==> Str(fields[j].name) != value
  {
    if fields != [] && Str(fields[0].name) != value {
      FieldNamedFirst(fields[1..], value);
      var r := FieldNamed(fields, value);
      if r.Some? {
        var i :| 0 <= i < |fields[1..]| && fields[1..][i] == r.value
                 && forall j :: 0 <= j < i ==> Str(fields[1..][j].name) != value;
        assert fields[i + 1] == r.value;
        forall j | 0 <= j < i + 1
          ensures Str(fields[j].name) != value
        {
          if j > 0 { assert fields[j] == fields[1..][j - 1]; }
        }
      }
    } else if fields != [] {
      assert fields[0] == FieldNamed(fields, value).value;
    }
  }

  function FieldNames(fields: seq<Field>): (r: seq<string>)
    ensures |r| == |fields| && forall i :: 0 <= i < |r| ==> r[i] == fields[i].name
  {
    if fields == [] then [] else [fields[0].name] + FieldNames(fields[1..])
  }

  /** `context.models.find(x => x.name === field.type)` */
  function ModelOfType(models: seq<Model>, field: Field): (r: Option<Model>)
    ensures r.Some? ==> r.value in models && TypeText(field.fieldType) == Some(r.value.name)
  {
    var text := TypeText(field.fieldType);
    if text.None? then None else EntityConverter.ModelNamed(models, text.value)
  }

  /** `relationFromField`: the `relation` directive names the field at each end. */
  function RelationFromField(models: seq<Model>, model: Model, field: Field): Result<SqlRelation>
  {
    var relation := EntityConverter.FindDirective(field.directives, "relation");
    if relation.None? then
      Err(Raised("For relations you need specify decorator @relation, check model " + model.name + ", field: " + field.name))
    else
      var sourceName := Lookup(relation.value.args, "sourceField");
      var destName := Lookup(relation.value.args, "destField");
      var typeText := if TypeText(field.fieldType).Some? then TypeText(field.fieldType).value else "[object Object]";
      var sourceField := FieldNamed(model.fields, sourceName);
      if sourceField.None? then
        Err(Raised("Not found field " + JsString(sourceName) + " into model " + model.name))
      else
        var destModel := ModelOfType(models, field);
        if destModel.None? then
          Err(Raised("Not found model " + typeText + " specified into model " + model.name + " in field: " + field.name))
        else
          var destField := FieldNamed(destModel.value.fields, destName);
          if destField.None? then
            Err(Raised("Not found field " + JsString(destName) + " in model " + typeText
                       + ", available fields: " + Join(FieldNames(destModel.value.fields), ", ")))
          else
            Ok(SqlRelation(field, RelationEnd(model, sourceField.value), RelationEnd(destModel.value, destField.value), field.nonNull))
  }

  /** The three lists `entityTranformFromModel` fills. */
  datatype Parts = Parts(columns: seq<SqlColumn>, manyToOnes: seq<SqlRelation>, oneToManies: seq<SqlRelation>)

  /** One field of the loop: a relation when its type names a model (one-to-many for a
      collection), a column otherwise. */
  function TransformStep(models: seq<Model>, model: Model, parts: Parts, field: Field): Result<Parts>
  {
    if ModelOfType(models, field).Some? then
      var relation :- RelationFromField(models, model, field);
      if field.collection then Ok(parts.(oneToManies := parts.oneToManies + [relation]))
      else Ok(parts.(manyToOnes := parts.manyToOnes + [relation]))
    else
      var column :- ColumnFromField(field);
      Ok(parts.(columns := parts.columns + [column]))
  }

  /** The loop over the first fields. */
  function TransformFields(models: seq<Model>, model: Model, fields: seq<Field>): Result<Parts>
  {
    if fields == [] then Ok(Parts([], [], []))
    else
      var prev :- TransformFields(models, model, fields[..|fields| - 1]);
      TransformStep(models, model, prev, fields[|fields| - 1])
  }

  /** `entityTranformFromModel`: the entity directive's truthy name and schema, over the
      model's name and no schema. */
  function EntityFromModel(models: seq<Model>, model: Model): Result<SqlEntity>
  {
    var parts :- TransformFields(models, model, model.fields);
    var entity := EntityConverter.FindDirective(model.directives, "entity");
    var schema := if entity.Some? && Truthy(Lookup(entity.value.args, "schema")) then Some(JsString(Lookup(entity.value.args, "schema"))) else None;
    var name := if entity.Some? && Truthy(Lookup(entity.value.args, "name")) then JsString(Lookup(entity.value.args, "name")) else model.name;
    Ok(SqlEntity(model, schema, name, parts.columns, parts.manyToOnes, parts.oneToManies))
  }

  lemma {:induction false} TransformFieldsStop(models: seq<Model>, model: Model, fields: seq<Field>, i: nat)
    requires i <= |fields| && TransformFields(models, model, fields[..i]).Err?
    ensures TransformFields(models, model, fields) == TransformFields(models, model, fields[..i])
    decreases |fields| - i
  {
    if i == |fields| {
      assert fields[..i] == fields;
    } else {
      assert fields[..i + 1][..i] == fields[..i];
      TransformFieldsStop(models, model, fields, i + 1);
    }
  }

  /** `entityTranformFromModel`, pushing into three local lists. */
  method TransformModel(models: seq<Model>, model: Model) returns (r: Result<SqlEntity>)
    ensures r == EntityFromModel(models, model)
  {
    var fields := model.fields;
    var columns: seq<SqlColumn> := [];
    var manyToOnes: seq<SqlRelation> := [];
    var oneToManies: seq<SqlRelation> := [];
    for i := 0 to |fields|
      invariant TransformFields(models, model, fields[..i]) == Ok(Parts(columns, manyToOnes, oneToManies))
    {
      assert fields[..i + 1][..i] == fields[..i];
      var field := fields[i];
      var step := TransformStep(models, model, Parts(columns, manyToOnes, oneToManies), field);
      assert TransformFields(models, model, fields[..i + 1]) == step;
      if ModelOfType(models, field).Some? {
        var relation := RelationFromField(models, model, field);
        if relation.Err? {
          TransformFieldsStop(models, model, fields, i + 1);
          assert fields[..|fields|] == fields;
          return Err(relation.error);
        }
        if field.collection {
          oneToManies := oneToManies + [relation.value];
        } else {
          manyToOnes := manyToOnes + [relation.value];
        }
      } else {
        var column := ColumnFromField(field);
        if column.Err? {
          TransformFieldsStop(models, model, fields, i + 1);
          assert fields[..|fields|] == fields;
          return Err(column.error);
        }
        columns := columns + [column.value];
      }
    }
    assert fields[..|fields|] == fields;
    var entity := EntityConverter.FindDirective(model.directives, "entity");
    var schema := if entity.Some? && Truthy(Lookup(entity.value.args, "schema")) then Some(JsString(Lookup(entity.value.args, "schema"))) else None;
    var name := if entity.Some? && Truthy(Lookup(entity.value.args, "name")) then JsString(Lookup(entity.value.args, "name")) else model.name;
    return Ok(SqlEntity(model, schema, name, columns, manyToOnes, oneToManies));
  }
}
