/** What the update builder of `update-builder.ts` promises: one `SET` item and one parameter per `_set`
    key, both named by the field; the filter's parameters win over them on a clash; and
    the batch declares the key variable, updates, outputs the keys into it, reads the
    table under `root` with a row lock, and filters only when there are conditions. */
module LegacyUpdateProps {
  import opened Js
  import opened Schema
  import opened LegacySchema
  import opened CriteriaBuilder
  import opened LegacyUpdate

  /** A key that is not the last one's is read from the list without it. */
  lemma LookupInit(fields: Fields, key: string)
    requires fields != [] && key != fields[|fields| - 1].0
    ensures Lookup(fields, key) == Lookup(fields[..|fields| - 1], key)
    ensures key in Keys(fields) <==> key in Keys(fields[..|fields| - 1])
  {
    LookupInitAt(fields, key);
    KeysSnoc(fields);
  }

  lemma {:induction false} LookupInitAt(fields: Fields, key: string)
    requires fields != [] && key != fields[|fields| - 1].0
    ensures Lookup(fields, key) == Lookup(fields[..|fields| - 1], key)
  {
    if |fields| > 1 && fields[0].0 != key {
      assert fields[1..][..|fields| - 2] == fields[..|fields| - 1][1..];
      LookupInitAt(fields[1..], key);
    }
  }

  /** With distinct keys, the last key reads the last value. */
  lemma LookupLast(fields: Fields)
    requires fields != [] && DistinctKeys(fields)
    ensures Lookup(fields, fields[|fields| - 1].0) == fields[|fields| - 1].1
    ensures fields[|fields| - 1].0 !in Keys(fields[..|fields| - 1])
  {
    LookupAt(fields, |fields| - 1);
    var init := fields[..|fields| - 1];
    forall k | 0 <= k < |init|
      ensures Keys(init)[k] != fields[|fields| - 1].0
    {
      assert fields[k].0 != fields[|fields| - 1].0;
    }
  }

  /** `{ ...target, ...source }` reads a key from the source when the source has it. */
  lemma {:induction false} AssignReads(target: Fields, source: Fields, key: string)
    requires DistinctKeys(source)
    ensures Lookup(Assign(target, source), key) == if key in Keys(source) then Lookup(source, key) else Lookup(target, key)
  {
    if source != [] {
      var init := source[..|source| - 1];
      var last := source[|source| - 1];
      assert DistinctKeys(init);
      LookupPut(Assign(target, init), last.0, last.1, key);
      if key == last.0 {
        LookupLast(source);
        assert key in Keys(source) by {
          assert Keys(source)[|source| - 1] == key;
        }
      } else {
        AssignReads(target, init, key);
        LookupInit(source, key);
      }
    }
  }

  /** Every key of `_set` names one of the entity's fields. */
  predicate AllFields(columns: seq<SqlColumn>, changes: Fields)
  {
    changes == [] || (AllFields(columns, changes[..|changes| - 1]) && ColumnOfField(columns, changes[|changes| - 1].0).Some?)
  }

  /** The map succeeds exactly when every key is a field. */
  lemma {:induction false} SetItemsSucceed(columns: seq<SqlColumn>, changes: Fields)
    ensures SetItems(columns, changes).Ok? <==> AllFields(columns, changes)
  {
    if changes != [] {
      SetItemsSucceed(columns, changes[..|changes| - 1]);
    }
  }

  /** Every key of a successful map is a field. */
  lemma {:induction false} AllFieldsAt(columns: seq<SqlColumn>, changes: Fields, i: nat)
    requires AllFields(columns, changes) && i < |changes|
    ensures ColumnOfField(columns, changes[i].0).Some?
  {
    if i < |changes| - 1 {
      AllFieldsAt(columns, changes[..|changes| - 1], i);
    }
  }

  /** One item per key, in key order, assigning the field's column from the variable of
      the field's name. */
  lemma SetItemsAssign(columns: seq<SqlColumn>, changes: Fields, i: nat)
    requires i < |changes|
    ensures SetItems(columns, changes).Ok? ==>
              |SetItems(columns, changes).value.0| == |changes|
              && ColumnOfField(columns, changes[i].0).Some?
              && SetItems(columns, changes).value.0[i] == Assignment(ColumnOfField(columns, changes[i].0).value)
  {
    if SetItems(columns, changes).Ok? {
      SetItemsLength(columns, changes);
      SetItemsSucceed(columns, changes);
      AllFieldsAt(columns, changes, i);
      SetItemsAt(columns, changes, i);
    }
  }

  lemma {:induction false} SetItemsAt(columns: seq<SqlColumn>, changes: Fields, i: nat)
    requires i < |changes| && SetItems(columns, changes).Ok? && ColumnOfField(columns, changes[i].0).Some?
    requires |SetItems(columns, changes).value.0| == |changes|
    ensures SetItems(columns, changes).value.0[i] == Assignment(ColumnOfField(columns, changes[i].0).value)
  {
    var init := changes[..|changes| - 1];
    SetItemsLast(columns, changes);
    var prev := SetItems(columns, init).value.0;
    var last := Assignment(ColumnOfField(columns, changes[|changes| - 1].0).value);
    var all := SetItems(columns, changes).value.0;
    assert all == prev + [last];
    SetItemsLength(columns, init);
    if i < |init| {
      assert init[i] == changes[i];
      SetItemsAt(columns, init, i);
      assert all[i] == prev[i];
    } else {
      assert all[i] == last;
    }
  }

  /** The last key appends its own item after the earlier keys' items. */
  lemma SetItemsLast(columns: seq<SqlColumn>, changes: Fields)
    requires changes != [] && SetItems(columns, changes).Ok?
    ensures var init := changes[..|changes| - 1];
            var column := ColumnOfField(columns, changes[|changes| - 1].0);
            SetItems(columns, init).Ok? && column.Some?
            && SetItems(columns, changes).value.0 == SetItems(columns, init).value.0 + [Assignment(column.value)]
  {
  }

  /** One step of the map: it fails on the earlier keys or on the last key's missing column. */
  lemma SetItemsUnfold(columns: seq<SqlColumn>, changes: Fields)
    requires changes != []
    ensures var prev := SetItems(columns, changes[..|changes| - 1]);
            var column := ColumnOfField(columns, changes[|changes| - 1].0);
            SetItems(columns, changes).Ok? <==> prev.Ok? && column.Some?
  {
  }

  lemma {:induction false} SetItemsLength(columns: seq<SqlColumn>, changes: Fields)
    ensures SetItems(columns, changes).Ok? ==> |SetItems(columns, changes).value.0| == |changes|
  {
    if changes != [] {
      SetItemsLength(columns, changes[..|changes| - 1]);
    }
  }

  /** The parameters are named by the `_set` keys and nothing else. */
  lemma {:induction false} SetItemsKeys(columns: seq<SqlColumn>, changes: Fields, key: string)
    ensures var r := SetItems(columns, changes);
            r.Ok? ==> (key in Keys(r.value.1) <==> key in Keys(changes))
  {
    var r := SetItems(columns, changes);
    if changes != [] && r.Ok? {
      var init := changes[..|changes| - 1];
      var name := changes[|changes| - 1].0;
      var prev := SetItems(columns, init).value;
      assert r.value.1 == Put(prev.1, name, Lookup(changes, name));
      SetItemsKeys(columns, init, key);
      if key == name {
        assert Keys(changes)[|changes| - 1] == key;
      } else {
        LookupInit(changes, key);
      }
    }
  }

  /** Each parameter holds its key's `_set` value. */
  lemma {:induction false} SetItemsValues(columns: seq<SqlColumn>, changes: Fields, key: string)
    requires key in Keys(changes)
    ensures var r := SetItems(columns, changes);
            r.Ok? ==> Lookup(r.value.1, key) == Lookup(changes, key)
  {
    var init := changes[..|changes| - 1];
    var name := changes[|changes| - 1].0;
    var r := SetItems(columns, changes);
    if r.Ok? {
      var prev := SetItems(columns, init).value;
      assert r.value.1 == Put(prev.1, name, Lookup(changes, name));
      LookupPut(prev.1, name, Lookup(changes, name), key);
      if key != name {
        LookupInit(changes, key);
        SetItemsValues(columns, init, key);
      }
    }
  }

  /** The batch for compiled items and filter: the key declaration, `UPDATE [root]`, the
      `SET` items, the key output, the locked table, the filter's joins, and a `WHERE`
      line exactly when there are conditions. */
  lemma ChunksShape(entity: SqlEntity, items: seq<string>, filtered: QueryContext)
    ensures var c := UpdateChunks(entity, items, filtered);
            |c| == 5 + |filtered.joins| + (if filtered.wheres == [] then 0 else 1)
            && StartsWith(c[0], "DECLARE @" + entity.info.name + " As table (")
            && c[1] == "UPDATE [root]"
            && c[2] == "SET " + Join(items, ", ")
            && StartsWith(c[3], "OUTPUT ")
            && c[4] == "FROM " + TableNameAccessLocked(entity, "root")
            && c[5..5 + |filtered.joins|] == filtered.joins
            && (filtered.wheres != [] ==> c[|c| - 1] == "WHERE " + Join(filtered.wheres, " AND "))
  {
    KeyTableHead(entity);
    KeyOutputHead(entity);
    var c := UpdateChunks(entity, items, filtered);
    var head := [KeyTable(entity), "UPDATE [root]", "SET " + Join(items, ", "), KeyOutput(entity), "FROM " + TableNameAccessLocked(entity, "root")];
    var tail := if |filtered.wheres| > 0 then ["WHERE " + Join(filtered.wheres, " AND ")] else [];
    assert c == head + filtered.joins + tail;
    assert c[..5] == head;
    assert c[5..5 + |filtered.joins|] == filtered.joins;
  }

  lemma KeyTableHead(entity: SqlEntity)
    ensures StartsWith(KeyTable(entity), "DECLARE @" + entity.info.name + " As table (")
  {
    var p := "DECLARE @" + entity.info.name + " As table (";
    assert (p + Join(KeyDeclarations(KeyColumns(entity.columns)), ", ") + ")")[..|p|] == p;
  }

  lemma KeyOutputHead(entity: SqlEntity)
    ensures StartsWith(KeyOutput(entity), "OUTPUT ")
  {
    assert ("OUTPUT " + KeyOutputTarget(entity))[..7] == "OUTPUT ";
  }

  /** `build` succeeds only when every `_set` key is a field; its batch is the shape of
      `ChunksShape` for the compiled filter and items; each parameter is the filter's
      when the filter bound it and the `_set` value otherwise. */
  lemma UpdateShape(entities: seq<SqlEntity>, entity: SqlEntity, projection: Projection, key: string)
    requires projection.Expand?
    ensures var r := UpdateOf(entities, entity, projection);
            r.Ok? ==>
              var changes := OwnProperties(Prop(projection.args, "_set")).value;
              var filtered := WhereOf(entities, Blank, "root", entity, Prop(projection.args, "where"), None).value;
              var items := SetItems(entity.columns, changes).value;
              AllFields(entity.columns, changes)
              && r.value.chunks == UpdateChunks(entity, items.0, filtered)
              && (DistinctKeys(filtered.params) && key in Keys(changes) ==>
                    Lookup(r.value.params, key) == if key in Keys(filtered.params) then Lookup(filtered.params, key) else Lookup(changes, key))
  {
    var r := UpdateOf(entities, entity, projection);
    if r.Ok? {
      var changes := OwnProperties(Prop(projection.args, "_set")).value;
      var filtered := WhereOf(entities, Blank, "root", entity, Prop(projection.args, "where"), None).value;
      var items := SetItems(entity.columns, changes).value;
      assert r.value == UpdateOutput(UpdateChunks(entity, items.0, filtered), Assign(items.1, filtered.params));
      SetItemsSucceed(entity.columns, changes);
      if DistinctKeys(filtered.params) && key in Keys(changes) {
        AssignReads(items.1, filtered.params, key);
        SetItemsValues(entity.columns, changes, key);
      }
    }
  }

  /** The map fails only by reading a missing column. */
  lemma {:induction false} SetItemsFailure(columns: seq<SqlColumn>, changes: Fields)
    ensures SetItems(columns, changes).Err? ==> SetItems(columns, changes).error == UndefinedRead
  {
    if changes != [] {
      SetItemsFailure(columns, changes[..|changes| - 1]);
    }
  }

  /** The table is schema-qualified only when a schema is set, and always row-locked. */
  lemma LockedAccess(entity: SqlEntity, alias: string)
    ensures var s := TableNameAccessLocked(entity, alias);
            EndsWith(s, "] AS [" + alias + "] WITH(ROWLOCK)")
            && (Present(entity.schema) ==> StartsWith(s, "[" + entity.schema.value + "].["))
            && (!Present(entity.schema) ==> s == "[" + entity.name + "] AS [" + alias + "] WITH(ROWLOCK)")
  {
    var p := if Present(entity.schema) then "[" + entity.schema.value + "]." else "";
    var x := p + "[";
    assert TableNameAccessLocked(entity, alias) == x + entity.name + "] AS [" + alias + "] WITH(ROWLOCK)";
    EndsWithLast(x + entity.name, "] AS [", alias, "] WITH(ROWLOCK)");
    if Present(entity.schema) {
      StartsWithFirst(x, entity.name, "] AS [", alias, "] WITH(ROWLOCK)");
    } else {
      assert x == "[";
    }
  }
}
