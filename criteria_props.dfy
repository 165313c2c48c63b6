/** What the filter compiler of `criteria-builder.ts` promises: each operator's condition and bindings,
    `_and` as filters applied in turn, the refused keys, and relation filters that join
    and then filter the joined table. */
module CriteriaProps {
  import opened Js
  import opened Schema
  import opened LegacySchema
  import opened CriteriaBuilder

  // ---------------------------------------------------------------- operators

  /** Indexed parameter names differ for different indices. */
  lemma IndexedNameInjective(name: string, i: nat, j: nat)
    requires IndexedName(name, i) == IndexedName(name, j)
    ensures i == j
  {
    var a, b := IndexedName(name, i), IndexedName(name, j);
    assert a[|name| + 1..] == NatToString(i);
    assert b[|name| + 1..] == NatToString(j);
    NatToStringInjective(i, j);
  }

  /** Binding an array leaves each item under its own indexed name. */
  lemma {:induction false} BindItemsLookup(params: Fields, name: string, items: seq<Value>, i: nat)
    requires i < |items|
    ensures Lookup(BindItems(params, name, items), IndexedName(name, i)) == items[i]
    decreases |items|
  {
    var n := |items| - 1;
    LookupPut(BindItems(params, name, items[..n]), IndexedName(name, n), items[n], IndexedName(name, i));
    if i < n {
      if IndexedName(name, n) == IndexedName(name, i) {
        IndexedNameInjective(name, n, i);
      }
      BindItemsLookup(params, name, items[..n], i);
      assert items[..n][i] == items[i];
    }
  }

  /** `_eq` on a single value binds it under the operator's variable, changes no other
      parameter, and compares the column with that variable. */
  lemma EqOperator(ctx: QueryContext, mapName: string, column: SqlColumn, property: string, value: Value)
    requires !value.Arr?
    ensures OperatorOf(ctx, mapName, column, property, ("_eq", value)).Ok?
    ensures var r := OperatorOf(ctx, mapName, column, property, ("_eq", value)).value;
            r.wheres == ctx.wheres + [ColumnRef(mapName, column) + " = @" + VariableName(mapName, property, "_eq")]
    ensures var r := OperatorOf(ctx, mapName, column, property, ("_eq", value)).value;
            Lookup(r.params, VariableName(mapName, property, "_eq")) == value
    ensures var r := OperatorOf(ctx, mapName, column, property, ("_eq", value)).value;
            forall other :: other != VariableName(mapName, property, "_eq") ==> Lookup(r.params, other) == Lookup(ctx.params, other)
  {
    var name := VariableName(mapName, property, "_eq");
    var r := OperatorOf(ctx, mapName, column, property, ("_eq", value));
    assert r.value.params == Put(ctx.params, name, value);
    forall other | other != name
      ensures Lookup(r.value.params, other) == Lookup(ctx.params, other)
    {
      LookupPut(ctx.params, name, value, other);
    }
    LookupPut(ctx.params, name, value, name);
  }

  /** `_in` accepts only an array: each item is bound under its indexed variable, and
      the column is compared with the list of those variables, in order. */
  lemma InOperator(ctx: QueryContext, mapName: string, column: SqlColumn, property: string, value: Value)
    ensures var name := VariableName(mapName, property, "_in");
            var r := OperatorOf(ctx, mapName, column, property, ("_in", value));
            (r.Ok? <==> value.Arr?)
            && (r.Err? ==> r.error == Raised(InExpectsArray))
            && (r.Ok? ==>
                  r.value.wheres == ctx.wheres + [ColumnRef(mapName, column) + " in ("
                                                  + Join(InVariables(name, |value.items|), ",") + ")"]
                  && forall i :: 0 <= i < |value.items| ==> Lookup(r.value.params, IndexedName(name, i)) == value.items[i])
  {
    var name := VariableName(mapName, property, "_in");
    if value.Arr? {
      forall i | 0 <= i < |value.items|
        ensures Lookup(BindItems(ctx.params, name, value.items), IndexedName(name, i)) == value.items[i]
      {
        BindItemsLookup(ctx.params, name, value.items, i);
      }
    }
  }

  /** Every operator but `_eq` and `_in` throws. */
  lemma OtherOperator(ctx: QueryContext, mapName: string, column: SqlColumn, property: string, op: (string, Value))
    requires op.0 != "_eq" && op.0 != "_in"
    ensures OperatorOf(ctx, mapName, column, property, op) == Err(Raised("Operator not implemented: " + op.0))
  {
  }

  /** No dot survives in a parameter's map name part. */
  lemma {:induction false} NoDotInMapName(mapName: string)
    ensures Count(ReplaceAll(mapName, '.', "_"), '.') == 0
  {
    if mapName != [] {
      NoDotInMapName(mapName[1..]);
      CountAppend(if mapName[0] == '.' then "_" else [mapName[0]], ReplaceAll(mapName[1..], '.', "_"), '.');
    }
  }

  // ---------------------------------------------------------------- filters

  /** Each filter of a list applied in turn to what the earlier ones left. */
  function AndSeq(entities: seq<SqlEntity>, ctx: QueryContext, mapName: string, model: SqlEntity, items: seq<Value>,
                  prefix: Option<string>): Result<QueryContext>
    decreases items
  {
    if items == [] then Ok(ctx)
    else
      var next :- WhereOf(entities, ctx, mapName, model, items[0], prefix);
      AndSeq(entities, next, mapName, model, items[1..], prefix)
  }

  lemma {:induction false} AndFromSeq(entities: seq<SqlEntity>, ctx: QueryContext, mapName: string, model: SqlEntity,
                                      list: Value, prefix: Option<string>, j: nat)
    requires list.Arr? && j <= |list.items|
    ensures AndFrom(entities, ctx, mapName, model, list, prefix, j) == AndSeq(entities, ctx, mapName, model, list.items[j..], prefix)
    decreases |list.items| - j
  {
    if j < |list.items| {
      var next := WhereOf(entities, ctx, mapName, model, list.items[j], prefix);
      assert list.items[j..][0] == list.items[j] && list.items[j..][1..] == list.items[j + 1..];
      if next.Ok? {
        AndFromSeq(entities, next.value, mapName, model, list, prefix, j + 1);
      }
    }
  }

  /** `{_and: [f1, ..., fn]}` is `f1`, then `f2`, ..., then `fn` on the same table. */
  lemma AndFlattens(entities: seq<SqlEntity>, ctx: QueryContext, mapName: string, model: SqlEntity, items: seq<Value>,
                    prefix: Option<string>)
    ensures WhereOf(entities, ctx, mapName, model, Obj([("_and", Arr(items))]), prefix)
         == AndSeq(entities, ctx, mapName, model, items, prefix)
  {
    SingleKey(entities, ctx, mapName, model, "_and", Arr(items), prefix);
    AndFromSeq(entities, ctx, mapName, model, Arr(items), prefix, 0);
    assert items[0..] == items;
  }

  /** A filter object whose first key throws throws that. */
  lemma FirstKeyThrows(entities: seq<SqlEntity>, ctx: QueryContext, mapName: string, model: SqlEntity, fields: Fields,
                       prefix: Option<string>)
    requires |fields| > 0 && PropertyOf(entities, ctx, mapName, model, Obj(fields), prefix, 0).Err?
    ensures WhereOf(entities, ctx, mapName, model, Obj(fields), prefix) == PropertyOf(entities, ctx, mapName, model, Obj(fields), prefix, 0)
  {
    assert WhereOf(entities, ctx, mapName, model, Obj(fields), prefix) == WhereFrom(entities, ctx, mapName, model, Obj(fields), prefix, 0);
  }

  /** A filter object with one key is that key's step. */
  lemma SingleKey(entities: seq<SqlEntity>, ctx: QueryContext, mapName: string, model: SqlEntity, key: string, value: Value,
                  prefix: Option<string>)
    ensures WhereOf(entities, ctx, mapName, model, Obj([(key, value)]), prefix) == PropertyOf(entities, ctx, mapName, model, Obj([(key, value)]), prefix, 0)
  {
    var where := Obj([(key, value)]);
    assert WhereOf(entities, ctx, mapName, model, where, prefix) == WhereFrom(entities, ctx, mapName, model, where, prefix, 0);
    var step := PropertyOf(entities, ctx, mapName, model, where, prefix, 0);
    if step.Ok? {
      assert WhereFrom(entities, step.value, mapName, model, where, prefix, 1) == Ok(step.value);
    }
  }

  /** A falsy filter adds nothing. */
  lemma FalsyFilter(entities: seq<SqlEntity>, ctx: QueryContext, mapName: string, model: SqlEntity, where: Value,
                    prefix: Option<string>)
    requires !Truthy(where)
    ensures WhereOf(entities, ctx, mapName, model, where, prefix) == Ok(ctx)
  {
  }

  /** `_or` throws. */
  lemma OrRefused(entities: seq<SqlEntity>, ctx: QueryContext, mapName: string, model: SqlEntity, fields: Fields,
                  prefix: Option<string>)
    requires |fields| > 0 && fields[0].0 == "_or"
    ensures WhereOf(entities, ctx, mapName, model, Obj(fields), prefix) == Err(Raised(OrNotImplemented))
  {
    FirstKeyThrows(entities, ctx, mapName, model, fields, prefix);
  }

  /** A key that is no column and no many-to-one relation throws. */
  lemma UnknownKeyRefused(entities: seq<SqlEntity>, ctx: QueryContext, mapName: string, model: SqlEntity, fields: Fields,
                          prefix: Option<string>)
    requires |fields| > 0 && fields[0].0 != "_and" && fields[0].0 != "_or"
    requires forall c :: c in model.columns ==> c.info.name != fields[0].0
    requires forall m :: m in model.manyToOnes ==> m.field.name != fields[0].0
    ensures WhereOf(entities, ctx, mapName, model, Obj(fields), prefix) == Err(Raised("Unexpected property name: " + fields[0].0))
  {
    assert PropertyOf(entities, ctx, mapName, model, Obj(fields), prefix, 0) == Err(Raised("Unexpected property name: " + fields[0].0));
    FirstKeyThrows(entities, ctx, mapName, model, fields, prefix);
  }

  /** A filter on a many-to-one relation joins the relation's table under the dotted
      alias and filters it there, whatever columns the source table has. */
  lemma RelationFilter(entities: seq<SqlEntity>, ctx: QueryContext, mapName: string, model: SqlEntity, key: string,
                       filter: Value, prefix: Option<string>)
    requires key != "_and" && key != "_or"
    requires RelationOfField(model.manyToOnes, key).Some?
    ensures var rel := RelationOfField(model.manyToOnes, key).value;
            var dest := EntityOfModel(entities, rel.dest.model);
            var alias := Dotted(prefix) + key;
            var r := WhereOf(entities, ctx, mapName, model, Obj([(key, filter)]), prefix);
            (dest.None? ==> r == Err(UndefinedRead))
            && (dest.Some? ==>
                  r == WhereOf(entities, ctx.(joins := ctx.joins + [WhereJoin(rel, dest.value, alias, mapName)]),
                               alias, dest.value, filter, Some(alias)))
  {
    SingleKey(entities, ctx, mapName, model, key, filter, prefix);
  }

  /** `{column: {_eq: v}}` adds exactly one condition and binds `v`. */
  lemma ColumnEquals(entities: seq<SqlEntity>, ctx: QueryContext, mapName: string, model: SqlEntity, key: string,
                     value: Value, prefix: Option<string>)
    requires key != "_and" && key != "_or" && !value.Arr?
    requires ColumnOfField(model.columns, key).Some? && RelationOfField(model.manyToOnes, key).None?
    ensures var name := VariableName(mapName, key, "_eq");
            var r := WhereOf(entities, ctx, mapName, model, Obj([(key, Obj([("_eq", value)]))]), prefix);
            r.Ok?
            && r.value.wheres == ctx.wheres + [ColumnRef(mapName, ColumnOfField(model.columns, key).value) + " = @" + name]
            && Lookup(r.value.params, name) == value
            && r.value.joins == ctx.joins
  {
    var column := ColumnOfField(model.columns, key).value;
    var ops := Obj([("_eq", value)]);
    SingleKey(entities, ctx, mapName, model, key, ops, prefix);
    EqOperator(ctx, mapName, column, key, value);
    var step := OperatorOf(ctx, mapName, column, key, ("_eq", value));
    assert Entries(ops) == [("_eq", value)];
    assert OperatorsFrom(step.value, mapName, column, key, Entries(ops), 1) == Ok(step.value);
  }
}
