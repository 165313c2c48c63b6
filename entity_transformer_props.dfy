/** What the schema transformer of `entity-transformer.ts` promises: its type table, how columns are named,
    when a relation resolves, and that every field lands, in order, in exactly one of
    the three lists. */
module EntityTransformerProps {
  import opened Js
  import opened Schema
  import opened LegacySchema
  import opened EntityTransformer
  import EntityConverter
  import EntityConverterProps

  /** Only the seven primitive names map, and no two of them to the same SQL type. */
  lemma TransformerTypeTable(a: Option<string>, b: Option<string>)
    ensures ColumnTypeFromDataType(a).Ok? <==> a.Some? && a.value in EntityConverterProps.KnownTypes
    ensures ColumnTypeFromDataType(a).Ok? && ColumnTypeFromDataType(a) == ColumnTypeFromDataType(b) ==> a == b
  {
  }

  /** The type table of `entity-transformer.ts` agrees with that of `entity.converter.ts` except that a boolean is a
      `tinyint` here and a `bit` there. */
  lemma TypeTablesAgreeButBoolean(t: string)
    ensures ColumnTypeFromDataType(Some(t)).Ok? <==> EntityConverter.ColumnType(t).Ok?
    ensures t != "boolean" && EntityConverter.ColumnType(t).Ok? ==> ColumnTypeFromDataType(Some(t)) == EntityConverter.ColumnType(t)
    ensures t == "boolean" ==> ColumnTypeFromDataType(Some(t)) == Ok("tinyint") && EntityConverter.ColumnType(t) == Ok("bit")
  {
  }

  /** A column keeps its field; it is primary exactly when some directive is named `pk`;
      a truthy `column` name or type wins, and only an unknown type with no such
      override fails. */
  lemma ColumnNaming(field: Field)
    ensures var r := ColumnFromField(field);
            var d := EntityConverter.FindDirective(field.directives, "column");
            var typed := d.Some? && Truthy(Lookup(d.value.args, "type"));
            (r.Ok? <==> typed || ColumnTypeFromDataType(TypeText(field.fieldType)).Ok?)
            && (r.Ok? ==>
                  r.value.info == field
                  && (r.value.isPrimary <==> exists x :: x in field.directives && x.name == "pk")
                  && r.value.name == (if d.Some? && Truthy(Lookup(d.value.args, "name")) then JsString(Lookup(d.value.args, "name")) else field.name)
                  && r.value.columnType == (if typed then JsString(Lookup(d.value.args, "type")) else ColumnTypeFromDataType(TypeText(field.fieldType)).value))
  {
  }

  /** A relation resolves exactly when the `relation` directive, the source field in the
      model, the model the type names and the destination field in it all exist; both
      ends then name the fields the directive gives. */
  lemma RelationResolved(models: seq<Model>, model: Model, field: Field)
    ensures var r := RelationFromField(models, model, field);
            var d := EntityConverter.FindDirective(field.directives, "relation");
            var dest := ModelOfType(models, field);
            (r.Ok? <==> d.Some? && FieldNamed(model.fields, Lookup(d.value.args, "sourceField")).Some?
                        && dest.Some? && FieldNamed(dest.value.fields, Lookup(d.value.args, "destField")).Some?)
            && (r.Ok? ==>
                  r.value.field == field && r.value.nonNull == field.nonNull
                  && r.value.source.model == model && r.value.source.field in model.fields
                  && Str(r.value.source.field.name) == Lookup(d.value.args, "sourceField")
                  && r.value.dest.model in models && TypeText(field.fieldType) == Some(r.value.dest.model.name)
                  && r.value.dest.field in r.value.dest.model.fields
                  && Str(r.value.dest.field.name) == Lookup(d.value.args, "destField"))
  {
  }

  /** A field is a relation when its type names a known model. */
  predicate IsRelation(models: seq<Model>, field: Field)
  {
    ModelOfType(models, field).Some?
  }

  /** A field the loop accepts. */
  predicate Transformable(models: seq<Model>, model: Model, field: Field)
  {
    if IsRelation(models, field) then RelationFromField(models, model, field).Ok? else ColumnFromField(field).Ok?
  }

  /** Whether a field belongs to the list picked by `relation` and `collection`. */
  predicate Keeps(models: seq<Model>, f: Field, relation: bool, collection: bool)
  {
    if relation then IsRelation(models, f) && f.collection == collection else !IsRelation(models, f)
  }

  /** The fields of one list, in order. */
  function Selected(models: seq<Model>, fields: seq<Field>, relation: bool, collection: bool): seq<Field>
  {
    if fields == [] then []
    else
      var f := fields[|fields| - 1];
      Selected(models, fields[..|fields| - 1], relation, collection) + (if Keeps(models, f, relation, collection) then [f] else [])
  }

  function ColumnInfos(columns: seq<SqlColumn>): (r: seq<Field>)
    ensures |r| == |columns| && forall i :: 0 <= i < |r| ==> r[i] == columns[i].info
  {
    if columns == [] then [] else ColumnInfos(columns[..|columns| - 1]) + [columns[|columns| - 1].info]
  }

  function RelationInfos(relations: seq<SqlRelation>): (r: seq<Field>)
    ensures |r| == |relations| && forall i :: 0 <= i < |r| ==> r[i] == relations[i].field
  {
    if relations == [] then [] else RelationInfos(relations[..|relations| - 1]) + [relations[|relations| - 1].field]
  }

  /** The lists hold exactly the columns, the single relations and the collection
      relations of `fields`, each in field order. */
  predicate Sorted(models: seq<Model>, parts: Parts, fields: seq<Field>)
  {
    ColumnInfos(parts.columns) == Selected(models, fields, false, false)
    && RelationInfos(parts.manyToOnes) == Selected(models, fields, true, false)
    && RelationInfos(parts.oneToManies) == Selected(models, fields, true, true)
  }

  lemma SelectedAppend(models: seq<Model>, init: seq<Field>, f: Field, relation: bool, collection: bool)
    ensures Selected(models, init + [f], relation, collection)
            == Selected(models, init, relation, collection) + (if Keeps(models, f, relation, collection) then [f] else [])
  {
    assert (init + [f])[..|init|] == init;
  }

  lemma ColumnInfosAppend(columns: seq<SqlColumn>, c: SqlColumn)
    ensures ColumnInfos(columns + [c]) == ColumnInfos(columns) + [c.info]
  {
    assert (columns + [c])[..|columns|] == columns;
  }

  lemma RelationInfosAppend(relations: seq<SqlRelation>, rel: SqlRelation)
    ensures RelationInfos(relations + [rel]) == RelationInfos(relations) + [rel.field]
  {
    assert (relations + [rel])[..|relations|] == relations;
  }

  /** A relation field that resolves lands, itself, at the end of the list its
      collection flag picks. */
  lemma StepRelation(models: seq<Model>, model: Model, parts: Parts, f: Field) returns (rel: SqlRelation)
    requires IsRelation(models, f) && TransformStep(models, model, parts, f).Ok?
    ensures rel.field == f
    ensures TransformStep(models, model, parts, f).value
            == if f.collection then parts.(oneToManies := parts.oneToManies + [rel]) else parts.(manyToOnes := parts.manyToOnes + [rel])
  {
    rel := RelationFromField(models, model, f).value;
  }

  /** A column field appends one column and leaves both relation lists. */
  lemma ColumnStep(models: seq<Model>, model: Model, parts: Parts, init: seq<Field>, f: Field)
    requires Sorted(models, parts, init) && !IsRelation(models, f)
    ensures var r := TransformStep(models, model, parts, f);
            (r.Ok? <==> Transformable(models, model, f)) && (r.Ok? ==> Sorted(models, r.value, init + [f]))
  {
    var r := TransformStep(models, model, parts, f);
    if r.Ok? {
      SelectedAppend(models, init, f, false, false);
      SelectedAppend(models, init, f, true, false);
      SelectedAppend(models, init, f, true, true);
      var c := ColumnFromField(f).value;
      assert c.info == f;
      assert r.value == parts.(columns := parts.columns + [c]);
      ColumnInfosAppend(parts.columns, c);
    }
  }

  /** A collection relation field appends one one-to-many relation. */
  lemma OneToManyStep(models: seq<Model>, model: Model, parts: Parts, init: seq<Field>, f: Field)
    requires Sorted(models, parts, init) && IsRelation(models, f) && f.collection
    ensures var r := TransformStep(models, model, parts, f);
            (r.Ok? <==> Transformable(models, model, f)) && (r.Ok? ==> Sorted(models, r.value, init + [f]))
  {
    var r := TransformStep(models, model, parts, f);
    if r.Ok? {
      SelectedAppend(models, init, f, false, false);
      SelectedAppend(models, init, f, true, false);
      SelectedAppend(models, init, f, true, true);
      var rel := StepRelation(models, model, parts, f);
      RelationInfosAppend(parts.oneToManies, rel);
    }
  }

  /** A single relation field appends one many-to-one relation. */
  lemma ManyToOneStep(models: seq<Model>, model: Model, parts: Parts, init: seq<Field>, f: Field)
    requires Sorted(models, parts, init) && IsRelation(models, f) && !f.collection
    ensures var r := TransformStep(models, model, parts, f);
            (r.Ok? <==> Transformable(models, model, f)) && (r.Ok? ==> Sorted(models, r.value, init + [f]))
  {
    var r := TransformStep(models, model, parts, f);
    if r.Ok? {
      SelectedAppend(models, init, f, false, false);
      SelectedAppend(models, init, f, true, false);
      SelectedAppend(models, init, f, true, true);
      var rel := StepRelation(models, model, parts, f);
      RelationInfosAppend(parts.manyToOnes, rel);
    }
  }

  /** Every one of `fields` is accepted. */
  predicate AllTransformable(models: seq<Model>, model: Model, fields: seq<Field>)
  {
    forall f :: f in fields ==> Transformable(models, model, f)
  }

  /** The loop succeeds exactly when every field is accepted, and then every field lands,
      in order, in the one list its type and collection flag pick. */
  lemma {:induction false} FieldsSorted(models: seq<Model>, model: Model, fields: seq<Field>)
    ensures var r := TransformFields(models, model, fields);
            (r.Ok? <==> AllTransformable(models, model, fields)) && (r.Ok? ==> Sorted(models, r.value, fields))
  {
    if fields == [] {
      assert Sorted(models, Parts([], [], []), []);
    } else {
      var init := fields[..|fields| - 1];
      var f := fields[|fields| - 1];
      assert fields == init + [f];
      assert AllTransformable(models, model, fields) <==> AllTransformable(models, model, init) && Transformable(models, model, f);
      FieldsSorted(models, model, init);
      var prev := TransformFields(models, model, init);
      var r := TransformFields(models, model, fields);
      if prev.Err? {
        assert r == Err(prev.error);
      } else {
        assert r == TransformStep(models, model, prev.value, f);
        if IsRelation(models, f) && f.collection {
          OneToManyStep(models, model, prev.value, init, f);
        } else if IsRelation(models, f) {
          ManyToOneStep(models, model, prev.value, init, f);
        } else {
          ColumnStep(models, model, prev.value, init, f);
        }
      }
    }
  }

  /** `entityTranformFromModel` succeeds exactly when every field is accepted; the
      entity keeps its model, takes the directive's truthy name and schema, and sorts
      the fields into its three lists. */
  lemma EntityShape(models: seq<Model>, model: Model)
    ensures var r := EntityFromModel(models, model);
            var d := EntityConverter.FindDirective(model.directives, "entity");
            (r.Ok? <==> AllTransformable(models, model, model.fields))
            && (r.Ok? ==>
                  r.value.info == model
                  && Sorted(models, Parts(r.value.columns, r.value.manyToOnes, r.value.oneToManies), model.fields)
                  && r.value.name == (if d.Some? && Truthy(Lookup(d.value.args, "name")) then JsString(Lookup(d.value.args, "name")) else model.name)
                  && (r.value.schema.Some? <==> d.Some? && Truthy(Lookup(d.value.args, "schema"))))
  {
    FieldsSorted(models, model, model.fields);
  }
}
