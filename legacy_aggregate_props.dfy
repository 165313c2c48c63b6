/** What the aggregate builder of `aggregate-builder.ts` promises: each field of the `aggregate` selection
    contributes its own columns, independently of the others and in field order — one
    `COUNT(1)` per `count`, one `AVG` per property under `avg` (each of which must be a
    column), nothing for any other aggregator. */
module LegacyAggregateProps {
  import opened Js
  import opened Schema
  import opened LegacySchema
  import opened CriteriaBuilder
  import opened LegacyAggregate

  /** Every property names one of the entity's columns. */
  predicate AllColumns(columns: seq<SqlColumn>, properties: seq<Projection>)
  {
    forall p :: p in properties ==> ColumnOfField(columns, p.name).Some?
  }

  /** The `AVG` columns for properties that all name columns, in property order. */
  function AvgColumns(alias: string, columns: seq<SqlColumn>, properties: seq<Projection>): (r: seq<string>)
    requires AllColumns(columns, properties)
    ensures |r| == |properties|
    ensures forall i :: 0 <= i < |r| ==> r[i] == AvgColumn(alias, ColumnOfField(columns, properties[i].name).value)
  {
    seq(|properties|, i requires 0 <= i < |properties| => AvgColumn(alias, ColumnOfField(columns, properties[i].name).value))
  }

  /** What one field of the selection adds, on its own. */
  function Contribution(alias: string, columns: seq<SqlColumn>, field: Projection): Result<seq<string>>
  {
    if field.name == "count" then Ok([CountColumn])
    else if field.FieldItem? then Err(NotIterable)
    else if field.name != "avg" then Ok([])
    else if AllColumns(columns, field.fields) then Ok(AvgColumns(alias, columns, field.fields))
    else Err(UndefinedRead)
  }

  /** The contributions of the fields in order, or the first field's error. */
  function Contributions(alias: string, columns: seq<SqlColumn>, fields: seq<Projection>): Result<seq<string>>
  {
    if fields == [] then Ok([])
    else
      var prev :- Contributions(alias, columns, fields[..|fields| - 1]);
      var c :- Contribution(alias, columns, fields[|fields| - 1]);
      Ok(prev + c)
  }

  /** Aggregators other than `avg` add nothing and never read their columns. */
  lemma {:induction false} OtherAggregatorAddsNothing(alias: string, columns: seq<SqlColumn>, aggregator: string,
                                                      before: seq<string>, properties: seq<Projection>)
    requires aggregator != "avg"
    ensures FoldResult(PropertyStep(alias, columns, aggregator), before, properties) == Ok(before)
  {
    if properties != [] {
      OtherAggregatorAddsNothing(alias, columns, aggregator, before, properties[..|properties| - 1]);
    }
  }

  /** `avg` adds one column per property when every property is a column, and fails
      otherwise. */
  lemma {:induction false} AvgAddsColumns(alias: string, columns: seq<SqlColumn>, before: seq<string>, properties: seq<Projection>)
    ensures var r := FoldResult(PropertyStep(alias, columns, "avg"), before, properties);
            (r.Ok? <==> AllColumns(columns, properties))
            && (r.Ok? ==> r.value == before + AvgColumns(alias, columns, properties))
            && (r.Err? ==> r.error == UndefinedRead)
  {
    if properties != [] {
      var init := properties[..|properties| - 1];
      var last := properties[|properties| - 1];
      assert properties == init + [last];
      assert AllColumns(columns, properties) <==> AllColumns(columns, init) && ColumnOfField(columns, last.name).Some?;
      AvgAddsColumns(alias, columns, before, init);
      if AllColumns(columns, properties) {
        assert AvgColumns(alias, columns, properties) == AvgColumns(alias, columns, init) + [AvgColumn(alias, ColumnOfField(columns, last.name).value)];
      }
    }
  }

  /** One pass of the outer loop appends exactly that field's contribution. */
  lemma FieldStepContributes(alias: string, columns: seq<SqlColumn>, out: seq<string>, field: Projection)
    ensures var c := Contribution(alias, columns, field);
            FieldStep(alias, columns)(out, field) == if c.Ok? then Ok(out + c.value) else Err(c.error)
  {
    if field.name != "count" && field.Expand? {
      if field.name == "avg" {
        AvgAddsColumns(alias, columns, out, field.fields);
      } else {
        OtherAggregatorAddsNothing(alias, columns, field.name, out, field.fields);
        assert out + [] == out;
      }
    }
  }

  /** The columns the loops leave are the contributions of the fields in order. */
  lemma {:induction false} ColumnsAreContributions(alias: string, columns: seq<SqlColumn>, before: seq<string>, fields: seq<Projection>)
    ensures var r := FoldResult(FieldStep(alias, columns), before, fields);
            var c := Contributions(alias, columns, fields);
            r == if c.Ok? then Ok(before + c.value) else Err(c.error)
  {
    if fields == [] {
      assert before + [] == before;
    } else {
      var init := fields[..|fields| - 1];
      var last := fields[|fields| - 1];
      ColumnsAreContributions(alias, columns, before, init);
      var prev := Contributions(alias, columns, init);
      var step := FieldStep(alias, columns);
      assert FoldResult(step, before, fields) == (if FoldResult(step, before, init).Err? then Err(FoldResult(step, before, init).error)
                                                  else step(FoldResult(step, before, init).value, last));
      if prev.Ok? {
        FieldStepContributes(alias, columns, before + prev.value, last);
        var c := Contribution(alias, columns, last);
        if c.Ok? {
          assert before + prev.value + c.value == before + (prev.value + c.value);
        }
      }
    }
  }

  /** `build` succeeds exactly when the entity is known, the arguments can be read, the
      filter compiles and the `aggregate` selection contributes; the context then holds
      the filter's joins, conditions and parameters and exactly those contributions. */
  lemma AggregateColumns(entities: seq<SqlEntity>, projection: Projection, prefix: Option<string>)
    requires projection.Expand?
    ensures var r := AggregateOf(entities, projection, prefix);
            var entity := EntityNamed(entities, projection.name);
            r.Ok? ==>
              var alias := AggregateAlias(entity.value, prefix);
              var agg := AggregateField(projection.fields);
              var start := QueryContext([], None, TableNameAccess(entity.value, alias), [], [], [], "", Undefined, Undefined, Undefined);
              var filtered := WhereOf(entities, start, alias, entity.value, Prop(projection.args, "where"), None);
              filtered.Ok? && agg.Some? && agg.value.Expand?
              && Contributions(alias, entity.value.columns, agg.value.fields).Ok?
              && r.value.joins == filtered.value.joins && r.value.wheres == filtered.value.wheres
              && r.value.params == filtered.value.params
              && r.value.columns == Contributions(alias, entity.value.columns, agg.value.fields).value
  {
    var r := AggregateOf(entities, projection, prefix);
    var entity := EntityNamed(entities, projection.name);
    if r.Ok? {
      var alias := AggregateAlias(entity.value, prefix);
      var agg := AggregateField(projection.fields).value;
      var start := QueryContext([], None, TableNameAccess(entity.value, alias), [], [], [], "", Undefined, Undefined, Undefined);
      var filtered := WhereOf(entities, start, alias, entity.value, Prop(projection.args, "where"), None).value;
      assert filtered.columns == [];
      ColumnsAreContributions(alias, entity.value.columns, [], agg.fields);
      assert [] + Contributions(alias, entity.value.columns, agg.fields).value == Contributions(alias, entity.value.columns, agg.fields).value;
    }
  }

  /** A selection of `count` fields only gives one `COUNT(1)` column each. */
  lemma {:induction false} CountsOnly(alias: string, columns: seq<SqlColumn>, fields: seq<Projection>)
    requires forall f :: f in fields ==> f.name == "count"
    ensures var r := Contributions(alias, columns, fields);
            r.Ok? && |r.value| == |fields| && forall i :: 0 <= i < |r.value| ==> r.value[i] == CountColumn
  {
    if fields != [] {
      var init := fields[..|fields| - 1];
      assert fields[|fields| - 1] in fields;
      assert forall f :: f in init ==> f in fields;
      CountsOnly(alias, columns, init);
      assert Contribution(alias, columns, fields[|fields| - 1]) == Ok([CountColumn]);
      assert Contributions(alias, columns, fields).value == Contributions(alias, columns, init).value + [CountColumn];
    }
  }
}
