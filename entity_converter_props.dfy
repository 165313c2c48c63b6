/** What the entity converter promises: the type table, one entity per `mssql` model
    in order, one column per primitive field and one relation per `mssql` reference in
    field order, the directive overrides, and exactly when the conversion fails. */
module EntityConverterProps {
  import opened Js
  import opened Schema
  import opened EntityConverter

  /** The seven primitive types the converter knows. */
  const KnownTypes := ["boolean", "buffer", "date", "float", "int", "string", "uuid"]

  /** Only the seven primitive types map, and no two of them to the same SQL type. */
  lemma ColumnTypeTable(a: string, b: string)
    ensures ColumnType(a).Ok? <==> a in KnownTypes
    ensures ColumnType(a).Ok? && ColumnType(a) == ColumnType(b) ==> a == b
  {
  }

  /** The `mssql` models, in order. */
  function MssqlModels(models: seq<Model>): (r: seq<Model>)
    ensures forall m :: m in r <==> m in models && m.source == "mssql"
  {
    if models == [] then []
    else
      var prev := MssqlModels(models[..|models| - 1]);
      var model := models[|models| - 1];
      assert forall m :: m in models <==> m in models[..|models| - 1] || m == model;
      if model.source == "mssql" then prev + [model] else prev
  }

  /** The first pass makes exactly one entity per `mssql` model, in input order, each
      named by `EntityOf`. */
  lemma {:induction false} FirstPassOrder(models: seq<Model>)
    ensures |EntitiesOf(models)| == |MssqlModels(models)|
    ensures forall i :: 0 <= i < |EntitiesOf(models)| ==> EntitiesOf(models)[i] == EntityOf(MssqlModels(models)[i])
  {
    if models != [] {
      FirstPassOrder(models[..|models| - 1]);
    }
  }

  /** The table is the model's name unless the `entity` directive gives one; schema and
      database are `undefined` unless that directive gives them; no column or relation
      exists before the second pass. */
  lemma EntityNaming(model: Model)
    ensures var e := EntityOf(model);
            var d := FindDirective(MssqlDirectives(model.directives), "entity");
            e.info == model && e.columns == [] && e.relations == []
            && (e.tableName == if d.Some? && !Nullish(Lookup(d.value.args, "name")) then Lookup(d.value.args, "name") else Str(model.name))
            && (e.schema == if d.Some? && !Nullish(Lookup(d.value.args, "schema")) then Lookup(d.value.args, "schema") else Undefined)
            && (e.database == if d.Some? && !Nullish(Lookup(d.value.args, "database")) then Lookup(d.value.args, "database") else Undefined)
  {
  }

  /** A column starts from the field's name, the mapped type and three false flags; the
      `column` directive sets `primary` and `computed` only by `=== true`, `identity` by
      `== true`, and replaces name and type only by truthy values. */
  lemma ColumnDefaults(field: Field)
    requires field.fieldType.Primitive?
    ensures var c := ColumnOf(field);
            var t := ColumnType(field.fieldType.name);
            var d := FindDirective(MssqlDirectives(field.directives), "column");
            (c.Ok? <==> t.Ok?)
            && (c.Ok? ==> (c.value.info == field
                           && (d.None? ==> c.value == SqlColumn(field, Str(field.name), Str(t.value), false, false, false))
                           && (d.Some? ==>
                                 (c.value.primary <==> Lookup(d.value.args, "primary") == Bool(true))
                                 && (c.value.computed <==> Lookup(d.value.args, "computed") == Bool(true))
                                 && (c.value.identity <==> LooseEqTrue(Lookup(d.value.args, "identity")))
                                 && c.value.columnName == (if Truthy(Lookup(d.value.args, "name")) then Lookup(d.value.args, "name") else Str(field.name))
                                 && c.value.columnType == (if Truthy(Lookup(d.value.args, "type")) then Lookup(d.value.args, "type") else Str(t.value)))))
  {
  }

  /** A field the second pass can convert: a primitive of a known type, a reference to
      another source, or an `mssql` reference to a known model with exactly one
      relation directive. */
  predicate Convertible(models: seq<Model>, field: Field)
  {
    match field.fieldType
    case Primitive(name) => name in KnownTypes
    case Reference(source, model) =>
      source != "mssql"
      || (ModelNamed(models, model).Some? && |RelationDirectives(MssqlDirectives(field.directives))| == 1)
  }

  /** The fields that become columns, in order. */
  function PrimitiveFields(fields: seq<Field>): seq<Field>
  {
    if fields == [] then []
    else PrimitiveFields(fields[..|fields| - 1]) + (if fields[|fields| - 1].fieldType.Primitive? then [fields[|fields| - 1]] else [])
  }

  /** The fields that become relations, in order. */
  function MssqlReferences(fields: seq<Field>): seq<Field>
  {
    if fields == [] then []
    else
      var f := fields[|fields| - 1];
      MssqlReferences(fields[..|fields| - 1]) + (if f.fieldType.Reference? && f.fieldType.source == "mssql" then [f] else [])
  }

  function ColumnFields(columns: seq<SqlColumn>): (r: seq<Field>)
    ensures |r| == |columns| && forall i :: 0 <= i < |r| ==> r[i] == columns[i].info
  {
    if columns == [] then [] else ColumnFields(columns[..|columns| - 1]) + [columns[|columns| - 1].info]
  }

  function RelationFields(relations: seq<SqlRelation>): (r: seq<Field>)
    ensures |r| == |relations| && forall i :: 0 <= i < |r| ==> r[i] == relations[i].info
  {
    if relations == [] then [] else RelationFields(relations[..|relations| - 1]) + [relations[|relations| - 1].info]
  }

  /** `after` holds the columns and relations of `before`, then one column per
      primitive field and one relation per `mssql` reference of `fields`, in order. */
  predicate Appended(before: SqlEntity, after: SqlEntity, fields: seq<Field>)
  {
    ColumnFields(after.columns) == ColumnFields(before.columns) + PrimitiveFields(fields)
    && RelationFields(after.relations) == RelationFields(before.relations) + MssqlReferences(fields)
  }

  /** A primitive field converts exactly when its type is known. */
  lemma ColumnStep(models: seq<Model>, entities: seq<SqlEntity>, entity: SqlEntity, field: Field)
    requires field.fieldType.Primitive?
    ensures var r := FieldStep(models, entities, entity, field);
            (r.Ok? <==> Convertible(models, field)) && (r.Ok? ==> Appended(entity, r.value, [field]))
  {
    ColumnTypeTable(field.fieldType.name, field.fieldType.name);
    var r := FieldStep(models, entities, entity, field);
    assert [field][..0] == [];
    if r.Ok? {
      var c := ColumnOf(field).value;
      assert r.value.columns == entity.columns + [c];
      assert (entity.columns + [c])[..|entity.columns|] == entity.columns;
    }
  }

  /** A reference field converts exactly when it is convertible. */
  lemma RelationStep(models: seq<Model>, entities: seq<SqlEntity>, entity: SqlEntity, field: Field)
    requires field.fieldType.Reference?
    ensures var r := FieldStep(models, entities, entity, field);
            (r.Ok? <==> Convertible(models, field)) && (r.Ok? ==> Appended(entity, r.value, [field]))
  {
    var r := FieldStep(models, entities, entity, field);
    var rel := RelationOf(models, entities, entity.info, field);
    assert [field][..0] == [];
    assert r.Ok? <==> rel.Ok?;
    if r.Ok? {
      assert r.value.columns == entity.columns;
      if field.fieldType.source == "mssql" {
        assert r.value.relations == entity.relations + [rel.value.value];
        assert (entity.relations + [rel.value.value])[..|entity.relations|] == entity.relations;
      } else {
        assert r.value == entity;
      }
    }
  }

  /** One field converts exactly when it is convertible; a column or a relation is
      appended for it, or nothing for a reference to another source. */
  lemma FieldStepShape(models: seq<Model>, entities: seq<SqlEntity>, entity: SqlEntity, field: Field)
    ensures var r := FieldStep(models, entities, entity, field);
            (r.Ok? <==> Convertible(models, field)) && (r.Ok? ==> Appended(entity, r.value, [field]))
  {
    if field.fieldType.Primitive? {
      ColumnStep(models, entities, entity, field);
    } else {
      RelationStep(models, entities, entity, field);
    }
  }

  lemma PrimitiveFieldsAppend(init: seq<Field>, field: Field)
    ensures PrimitiveFields(init + [field]) == PrimitiveFields(init) + PrimitiveFields([field])
  {
    assert (init + [field])[..|init|] == init;
    assert [field][..0] == [];
  }

  lemma MssqlReferencesAppend(init: seq<Field>, field: Field)
    ensures MssqlReferences(init + [field]) == MssqlReferences(init) + MssqlReferences([field])
  {
    assert (init + [field])[..|init|] == init;
    assert [field][..0] == [];
  }

  /** Appending the fields one after another appends them all. */
  lemma AppendedTrans(a: SqlEntity, b: SqlEntity, c: SqlEntity, init: seq<Field>, field: Field)
    requires Appended(a, b, init) && Appended(b, c, [field])
    ensures Appended(a, c, init + [field])
  {
    PrimitiveFieldsAppend(init, field);
    MssqlReferencesAppend(init, field);
    ConcatTrans(ColumnFields(a.columns), ColumnFields(b.columns), ColumnFields(c.columns), PrimitiveFields(init), PrimitiveFields([field]));
    ConcatTrans(RelationFields(a.relations), RelationFields(b.relations), RelationFields(c.relations), MssqlReferences(init), MssqlReferences([field]));
  }

  lemma ConcatTrans(x: seq<Field>, y: seq<Field>, z: seq<Field>, p: seq<Field>, q: seq<Field>)
    requires y == x + p && z == y + q
    ensures z == x + (p + q)
  {
  }

  /** Every one of `fields` is convertible. */
  predicate AllConvertible(models: seq<Model>, fields: seq<Field>)
  {
    forall f :: f in fields ==> Convertible(models, f)
  }

  /** The field loop succeeds exactly when every field is convertible, and then gives
      one column per primitive field and one relation per `mssql` reference, in field
      order. */
  lemma {:induction false} FieldsConverted(models: seq<Model>, entities: seq<SqlEntity>, entity: SqlEntity, fields: seq<Field>)
    ensures var r := FieldsOf(models, entities, entity, fields);
            (r.Ok? <==> AllConvertible(models, fields)) && (r.Ok? ==> Appended(entity, r.value, fields))
  {
    if fields == [] {
      assert Appended(entity, entity, []);
    } else {
      var init := fields[..|fields| - 1];
      var field := fields[|fields| - 1];
      assert fields == init + [field];
      assert AllConvertible(models, fields) <==> AllConvertible(models, init) && Convertible(models, field);
      FieldsConverted(models, entities, entity, init);
      var prev := FieldsOf(models, entities, entity, init);
      var r := FieldsOf(models, entities, entity, fields);
      if prev.Err? {
        assert r == Err(prev.error);
      } else {
        FieldStepShape(models, entities, prev.value, field);
        assert r == FieldStep(models, entities, prev.value, field);
        if r.Ok? {
          AppendedTrans(entity, prev.value, r.value, init, field);
        }
      }
    }
  }

  /** `after` is `before` with the columns and relations of all its model's fields. */
  predicate Converted(before: SqlEntity, after: SqlEntity)
  {
    after.info == before.info && Appended(before, after, before.info.fields)
  }

  /** All fields of the first `k` entities are convertible. */
  predicate FirstConvertible(models: seq<Model>, entities: seq<SqlEntity>, k: nat)
    requires k <= |entities|
  {
    k == 0 || (FirstConvertible(models, entities, k - 1) && AllConvertible(models, entities[k - 1].info.fields))
  }

  /** The second pass over the first `k` entities succeeds exactly when all their
      fields are convertible, and then converts each of them, in order. */
  lemma {:induction false} SecondPassShape(models: seq<Model>, entities: seq<SqlEntity>, k: nat)
    requires k <= |entities|
    ensures var r := SecondPass(models, entities, k);
            (r.Ok? <==> FirstConvertible(models, entities, k))
            && (r.Ok? ==> |r.value| == k && forall j :: 0 <= j < k ==> Converted(entities[j], r.value[j]))
  {
    if k > 0 {
      SecondPassShape(models, entities, k - 1);
      var e := entities[k - 1];
      FieldsConverted(models, entities, e, e.info.fields);
      var prev := SecondPass(models, entities, k - 1);
      var last := FieldsOf(models, entities, e, e.info.fields);
      var r := SecondPass(models, entities, k);
      if prev.Err? {
        assert r == Err(prev.error);
      } else if last.Err? {
        assert r == Err(last.error);
      } else {
        assert r == Ok(prev.value + [last.value]);
        forall j | 0 <= j < k
          ensures Converted(entities[j], r.value[j])
        {
          if j < k - 1 {
            assert r.value[j] == prev.value[j];
          } else {
            assert r.value[j] == last.value;
          }
        }
      }
    }
  }

  /** `FirstConvertible` says that every field of every one of the entities converts. */
  lemma {:induction false} FirstConvertibleAll(models: seq<Model>, entities: seq<SqlEntity>, k: nat)
    requires k <= |entities|
    ensures FirstConvertible(models, entities, k) <==> forall j :: 0 <= j < k ==> AllConvertible(models, entities[j].info.fields)
  {
    if k > 0 {
      FirstConvertibleAll(models, entities, k - 1);
    }
  }

  /** The first pass gives each `mssql` model its own entity, with no column or
      relation yet. */
  lemma FirstPassInfos(models: seq<Model>)
    ensures var entities := EntitiesOf(models);
            var mssql := MssqlModels(models);
            |entities| == |mssql|
            && forall j :: 0 <= j < |entities| ==> entities[j].info == mssql[j] && entities[j].columns == [] && entities[j].relations == []
  {
    FirstPassOrder(models);
  }

  /** `fromModels` succeeds exactly when every field of every `mssql` model is
      convertible. */
  lemma FromModelsOk(models: seq<Model>)
    ensures FromModelsOf(models).Ok? <==> forall m :: m in models && m.source == "mssql" ==> AllConvertible(models, m.fields)
  {
    var entities := EntitiesOf(models);
    var mssql := MssqlModels(models);
    FirstPassInfos(models);
    SecondPassShape(models, entities, |entities|);
    FirstConvertibleAll(models, entities, |entities|);
    if forall m :: m in mssql ==> AllConvertible(models, m.fields) {
      forall j | 0 <= j < |entities|
        ensures AllConvertible(models, entities[j].info.fields)
      {
        assert mssql[j] in mssql;
      }
    } else {
      var m :| m in mssql && !AllConvertible(models, m.fields);
      var j :| 0 <= j < |mssql| && mssql[j] == m;
      assert !AllConvertible(models, entities[j].info.fields);
    }
  }

  /** When `fromModels` succeeds it keeps the `mssql` models in order, each with one
      column per primitive field and one relation per `mssql` reference, in field
      order. */
  lemma FromModelsShape(models: seq<Model>)
    requires FromModelsOf(models).Ok?
    ensures var r := FromModelsOf(models).value;
            var mssql := MssqlModels(models);
            |r| == |mssql|
            && forall j :: 0 <= j < |mssql| ==>
                 r[j].info == mssql[j]
                 && ColumnFields(r[j].columns) == PrimitiveFields(mssql[j].fields)
                 && RelationFields(r[j].relations) == MssqlReferences(mssql[j].fields)
  {
    var entities := EntitiesOf(models);
    var mssql := MssqlModels(models);
    var r := FromModelsOf(models).value;
    FirstPassInfos(models);
    SecondPassShape(models, entities, |entities|);
    forall j | 0 <= j < |mssql|
      ensures r[j].info == mssql[j]
      ensures ColumnFields(r[j].columns) == PrimitiveFields(mssql[j].fields)
      ensures RelationFields(r[j].relations) == MssqlReferences(mssql[j].fields)
    {
      assert Converted(entities[j], r[j]);
      assert ColumnFields(entities[j].columns) == [];
      assert RelationFields(entities[j].relations) == [];
    }
  }

  /** A relation points at the first converted entity holding the first model of the
      referenced name, or at nothing when no converted entity holds it; a
      `manyToMany` directive gives the join-table form, the others keep their name. */
  lemma RelationTarget(models: seq<Model>, entities: seq<SqlEntity>, owner: Model, field: Field)
    requires field.fieldType.Reference? && field.fieldType.source == "mssql"
    requires RelationOf(models, entities, owner, field).Ok?
    ensures var rel := RelationOf(models, entities, owner, field).value;
            var directive := RelationDirectives(MssqlDirectives(field.directives))[0];
            var model := ModelNamed(models, field.fieldType.model).value;
            rel.Some? && rel.value.info == field
            && (rel.value.joinEntity.Some? ==> (rel.value.joinEntity.value < |entities|
                                                && entities[rel.value.joinEntity.value].info == model))
            && (rel.value.joinEntity.None? <==> forall j :: 0 <= j < |entities| ==> entities[j].info != model)
            && (rel.value.ThroughTable? <==> directive.name == "manyToMany")
            && (rel.value.ToOneOrMany? ==> rel.value.kind == directive.name && rel.value.kind in ["manyToOne", "oneToMany"])
  {
  }

  /** The relation errors, in the order the converter checks them. */
  lemma RelationErrors(models: seq<Model>, entities: seq<SqlEntity>, owner: Model, field: Field)
    requires field.fieldType.Reference? && field.fieldType.source == "mssql"
    ensures var r := RelationOf(models, entities, owner, field);
            var relations := RelationDirectives(MssqlDirectives(field.directives));
            var at := "Model: " + owner.name + ", Field: " + field.name;
            (ModelNamed(models, field.fieldType.model).None? ==> r == Err(Raised("Model " + field.fieldType.model + " not found")))
            && (ModelNamed(models, field.fieldType.model).Some? && |relations| == 0 ==>
                  r == Err(Raised(at + " - Required a relation directive")))
            && (ModelNamed(models, field.fieldType.model).Some? && |relations| > 1 ==>
                  r == Err(Raised(at + " - Specified more than one relation [" + Join(DirectiveNames(relations), ",") + "]")))
  {
  }
}
