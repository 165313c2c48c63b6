/** What the result materialiser promises: a selection copies exactly the selected
    keys, child rows are kept exactly when their `__parent_` columns match the
    parent's `__` columns, recordset order is kept, a many-to-one include nests the
    same row's dotted columns, a to-many include reads the next recordset, and the
    mutation and aggregate answers carry what their arguments ask for. */
module RecordsetProps {
  import opened Js
  import opened Schema
  import opened Returning
  import opened RecordsetConverter

  // ---------------------------------------------------------------- counts

  /** The count of a batch of statements adds up the counts of its parts. */
  lemma {:induction false} SumAppend(a: seq<int>, b: seq<int>)
    ensures Sum(a + b) == Sum(a) + Sum(b)
    decreases |b|
  {
    if b == [] {
      assert a + b == a;
    } else {
      assert (a + b)[..|a + b| - 1] == a + b[..|b| - 1];
      SumAppend(a, b[..|b| - 1]);
    }
  }

  // ---------------------------------------------------------------- selections

  /** The selected item has exactly the keys of the selection, whatever their values
      (`false` included). */
  lemma {:induction false} SelectKeys(row: Fields, prefix: string, entries: Fields, k: string)
    ensures k in Keys(SelectItems(row, prefix, entries)) <==> k in Keys(entries)
  {
    if entries != [] {
      var init := entries[..|entries| - 1];
      SelectKeys(row, prefix, init, k);
      KeysSnoc(entries);
    }
  }

  /** Each selected key holds the row's value under the prefixed key. */
  lemma {:induction false} SelectValues(row: Fields, prefix: string, entries: Fields, k: string)
    requires k in Keys(entries)
    ensures Lookup(SelectItems(row, prefix, entries), k) == Lookup(row, prefix + k)
  {
    var init := entries[..|entries| - 1];
    var key := entries[|entries| - 1].0;
    KeysSnoc(entries);
    LookupPut(SelectItems(row, prefix, init), key, Lookup(row, prefix + key), k);
    if k != key {
      SelectValues(row, prefix, init, k);
    }
  }

  /** With distinct keys the selected item lists them in the selection's order. */
  lemma {:induction false} SelectOrder(row: Fields, prefix: string, entries: Fields)
    requires DistinctKeys(entries)
    ensures Keys(SelectItems(row, prefix, entries)) == Keys(entries)
  {
    if entries != [] {
      var init := entries[..|entries| - 1];
      var key := entries[|entries| - 1].0;
      KeysSnoc(entries);
      assert DistinctKeys(init);
      SelectOrder(row, prefix, init);
      assert key !in Keys(init) by {
        forall j | 0 <= j < |init|
          ensures Keys(init)[j] != key
        {
          assert entries[j].0 != entries[|entries| - 1].0;
        }
      }
    }
  }

  /** `convertEntityRecordsetRowSelect` on an object: its keys, in order, each read
      from the row under the prefix. */
  lemma SelectionOfObject(row: Fields, fields: Fields, prefix: string)
    requires DistinctKeys(fields)
    ensures var item := Selection(row, Obj(fields), prefix);
      Keys(item) == Keys(fields)
      && forall i :: 0 <= i < |fields| ==> Lookup(item, fields[i].0) == Lookup(row, prefix + fields[i].0)
  {
    SelectOrder(row, prefix, fields);
    forall i | 0 <= i < |fields|
      ensures Lookup(Selection(row, Obj(fields), prefix), fields[i].0) == Lookup(row, prefix + fields[i].0)
    {
      assert fields[i].0 == Keys(fields)[i];
      SelectValues(row, prefix, fields, fields[i].0);
    }
  }

  // ---------------------------------------------------------------- correlation

  /** The key record holds one key per primary column name. */
  lemma {:induction false} KeyNames(pks: seq<Column>, row: Fields, k: string)
    ensures k in Keys(KeyItems(pks, row)) <==> exists c :: c in pks && c.info.name == k
  {
    if pks != [] {
      var init := pks[..|pks| - 1];
      var last := pks[|pks| - 1];
      KeyNames(init, row, k);
      assert pks == init + [last];
      if exists c :: c in pks && c.info.name == k {
        var c :| c in pks && c.info.name == k;
        assert c in init || c == last;
      }
    }
  }

  /** Each key of the key record is bound to the row's `__<name>` column. */
  lemma {:induction false} KeyValues(pks: seq<Column>, row: Fields, k: string)
    requires k in Keys(KeyItems(pks, row))
    ensures Lookup(KeyItems(pks, row), k) == Lookup(row, "__" + k)
  {
    var init := pks[..|pks| - 1];
    var name := pks[|pks| - 1].info.name;
    LookupPut(KeyItems(init, row), name, Lookup(row, "__" + name), k);
    if k != name {
      KeyValues(init, row, k);
    }
  }

  /** A child row that belongs to the parent row matches it on every primary column. */
  lemma ChildMatchesKeys(entity: Entity, row: Fields, child: Fields, c: Column)
    requires SameParent(child, KeyRecord(entity, row)) && c in PrimaryColumns(entity.columns)
    ensures StrictEq(Lookup(child, "__parent_" + c.info.name), Lookup(row, "__" + c.info.name))
  {
    var parent := KeyRecord(entity, row);
    KeyNames(PrimaryColumns(entity.columns), row, c.info.name);
    KeyValues(PrimaryColumns(entity.columns), row, c.info.name);
    var k :| 0 <= k < |parent| && Keys(parent)[k] == c.info.name;
    assert ParentMatch(child, parent, k);
  }

  /** A child row that matches the parent row on every primary column belongs to it. */
  lemma KeysMatchChild(entity: Entity, row: Fields, child: Fields)
    requires forall c :: c in PrimaryColumns(entity.columns) ==>
      StrictEq(Lookup(child, "__parent_" + c.info.name), Lookup(row, "__" + c.info.name))
    ensures SameParent(child, KeyRecord(entity, row))
  {
    var parent := KeyRecord(entity, row);
    forall k | 0 <= k < |parent|
      ensures ParentMatch(child, parent, k)
    {
      var key := parent[k].0;
      assert Keys(parent)[k] == key;
      KeyNames(PrimaryColumns(entity.columns), row, key);
      KeyValues(PrimaryColumns(entity.columns), row, key);
      var c :| c in PrimaryColumns(entity.columns) && c.info.name == key;
    }
  }

  /** A child row belongs to a parent row exactly when, for every primary column of
      the parent entity, the child's `__parent_<name>` column strictly equals the
      parent's `__<name>` column. */
  lemma ChildCorrelation(entity: Entity, row: Fields, child: Fields)
    ensures SameParent(child, KeyRecord(entity, row)) <==>
      forall c :: c in PrimaryColumns(entity.columns) ==>
        StrictEq(Lookup(child, "__parent_" + c.info.name), Lookup(row, "__" + c.info.name))
  {
    if SameParent(child, KeyRecord(entity, row)) {
      forall c | c in PrimaryColumns(entity.columns)
        ensures StrictEq(Lookup(child, "__parent_" + c.info.name), Lookup(row, "__" + c.info.name))
      {
        ChildMatchesKeys(entity, row, child, c);
      }
    }
    if forall c :: c in PrimaryColumns(entity.columns) ==>
         StrictEq(Lookup(child, "__parent_" + c.info.name), Lookup(row, "__" + c.info.name)) {
      KeysMatchChild(entity, row, child);
    }
  }

  /** An entity without primary columns hands its children an empty key record, and
      every row of their recordset is kept for every parent. */
  lemma NoKeysKeepsAll(entity: Entity, row: Fields, child: Fields)
    requires forall c :: c in entity.columns ==> !c.options.primary
    ensures SameParent(child, KeyRecord(entity, row))
  {
    ChildCorrelation(entity, row, child);
  }

  // ---------------------------------------------------------------- recordsets

  /** The rows of a recordset that belong to the parent, in recordset order. */
  function Kept(rows: seq<Fields>, parent: Fields): (r: seq<Fields>)
    ensures |r| <= |rows|
  {
    if rows == [] then []
    else Kept(rows[..|rows| - 1], parent) + (if SameParent(rows[|rows| - 1], parent) then [rows[|rows| - 1]] else [])
  }

  /** A row is kept exactly when it belongs to the parent; without a parent every row
      is kept, in order. */
  lemma {:induction false} KeptRows(rows: seq<Fields>, parent: Fields)
    ensures forall x :: x in Kept(rows, parent) <==> x in rows && SameParent(x, parent)
    ensures parent == [] ==> Kept(rows, parent) == rows
  {
    if rows != [] {
      var init := rows[..|rows| - 1];
      KeptRows(init, parent);
      assert rows == init + [rows[|rows| - 1]];
    }
  }

  /** The recordset loop yields one object per kept row, in order, converted by
      `convertEntityRecordsetRow`; it fails exactly when one of those rows does. */
  lemma RowsKept(entity: Entity, args: Value, result: QueryResult, offset: nat, parent: Fields, rows: seq<Fields>)
    requires offset < |result.recordsets|
    ensures FoldResult(RowsStep(entity, args, result, offset, parent), [], rows).Ok? ==>
      forall i :: 0 <= i < |Kept(rows, parent)| ==> RowOf(entity, args, result, offset, Kept(rows, parent)[i]).Ok?
    ensures (forall i :: 0 <= i < |Kept(rows, parent)| ==> RowOf(entity, args, result, offset, Kept(rows, parent)[i]).Ok?) ==>
      FoldResult(RowsStep(entity, args, result, offset, parent), [], rows).Ok?
    ensures FoldResult(RowsStep(entity, args, result, offset, parent), [], rows).Ok? ==>
      |FoldResult(RowsStep(entity, args, result, offset, parent), [], rows).value| == |Kept(rows, parent)|
    ensures FoldResult(RowsStep(entity, args, result, offset, parent), [], rows).Ok? ==>
      forall i :: 0 <= i < |Kept(rows, parent)| ==>
        FoldResult(RowsStep(entity, args, result, offset, parent), [], rows).value[i]
          == RowOf(entity, args, result, offset, Kept(rows, parent)[i]).value
  {
    RowsConverted(entity, args, result, offset, parent, rows);
    ConvertedIff(entity, args, result, offset, Kept(rows, parent), FoldResult(RowsStep(entity, args, result, offset, parent), [], rows));
  }

  /** The first half of `Converted`, stated on its own. */
  lemma ConvertedIff(entity: Entity, args: Value, result: QueryResult, offset: nat, kept: seq<Fields>, r: Result<seq<Value>>)
    requires offset < |result.recordsets| && Converted(entity, args, result, offset, kept, r)
    ensures r.Ok? <==> forall i :: 0 <= i < |kept| ==> RowOf(entity, args, result, offset, kept[i]).Ok?
  {
  }

  /** `r` holds one converted object per row of `kept`, or fails on one of them. */
  ghost predicate Converted(entity: Entity, args: Value, result: QueryResult, offset: nat, kept: seq<Fields>, r: Result<seq<Value>>)
    requires offset < |result.recordsets|
  {
    (r.Ok? <==> forall i :: 0 <= i < |kept| ==> RowOf(entity, args, result, offset, kept[i]).Ok?)
    && (r.Ok? ==> (|r.value| == |kept|
          && forall i :: 0 <= i < |kept| ==> r.value[i] == RowOf(entity, args, result, offset, kept[i]).value))
  }

  lemma {:induction false} RowsConverted(entity: Entity, args: Value, result: QueryResult, offset: nat, parent: Fields, rows: seq<Fields>)
    requires offset < |result.recordsets|
    ensures Converted(entity, args, result, offset, Kept(rows, parent), FoldResult(RowsStep(entity, args, result, offset, parent), [], rows))
  {
    if rows != [] {
      var step := RowsStep(entity, args, result, offset, parent);
      var init := rows[..|rows| - 1];
      var row := rows[|rows| - 1];
      var prev := FoldResult(step, [], init);
      var keptInit := Kept(init, parent);
      var r := FoldResult(step, [], rows);
      RowsConverted(entity, args, result, offset, parent, init);
      assert r == if prev.Ok? then step(prev.value, row) else Err(prev.error);
      if SameParent(row, parent) {
        assert Kept(rows, parent) == keptInit + [row];
        if prev.Ok? {
          ConvertedAppend(entity, args, result, offset, keptInit, prev.value, row);
        } else {
          ConvertedErr(entity, args, result, offset, keptInit, prev, row);
        }
      } else {
        assert Kept(rows, parent) == keptInit;
        assert r == prev;
      }
    }
  }

  /** A kept row converts to one more object, or its error ends the loop. */
  lemma ConvertedAppend(entity: Entity, args: Value, result: QueryResult, offset: nat, kept: seq<Fields>, out: seq<Value>, row: Fields)
    requires offset < |result.recordsets| && Converted(entity, args, result, offset, kept, Ok(out))
    ensures var item := RowOf(entity, args, result, offset, row);
            Converted(entity, args, result, offset, kept + [row], if item.Ok? then Ok(out + [item.value]) else Err(item.error))
  {
    var item := RowOf(entity, args, result, offset, row);
    if item.Ok? {
      ConvertedOk(entity, args, result, offset, kept, out, row, item.value);
    } else {
      assert (kept + [row])[|kept|] == row;
    }
  }

  lemma ConvertedOk(entity: Entity, args: Value, result: QueryResult, offset: nat, kept: seq<Fields>, out: seq<Value>, row: Fields, item: Value)
    requires offset < |result.recordsets| && Converted(entity, args, result, offset, kept, Ok(out))
    requires RowOf(entity, args, result, offset, row) == Ok(item)
    ensures Converted(entity, args, result, offset, kept + [row], Ok(out + [item]))
  {
    var all := kept + [row];
    assert forall i :: 0 <= i < |kept| ==> all[i] == kept[i] && (out + [item])[i] == out[i];
  }

  /** An earlier error stays the loop's error. */
  lemma ConvertedErr(entity: Entity, args: Value, result: QueryResult, offset: nat, kept: seq<Fields>, prev: Result<seq<Value>>, row: Fields)
    requires offset < |result.recordsets| && prev.Err? && Converted(entity, args, result, offset, kept, prev)
    ensures Converted(entity, args, result, offset, kept + [row], Err(prev.error))
  {
    var i :| 0 <= i < |kept| && !RowOf(entity, args, result, offset, kept[i]).Ok?;
    assert (kept + [row])[i] == kept[i];
  }

  /** `convertEntityRecordset`: past the last recordset the loop crashes; otherwise
      one object per row of that recordset that belongs to the parent, in order. */
  lemma RecordsetRows(entity: Entity, args: Value, result: QueryResult, offset: nat, parent: Fields)
    ensures offset >= |result.recordsets| ==> RecordsetOf(entity, args, result, offset, parent) == Err(MissingRecordset)
    ensures offset < |result.recordsets| ==>
      var r, kept := RecordsetOf(entity, args, result, offset, parent), Kept(result.recordsets[offset], parent);
      (r.Ok? <==> forall i :: 0 <= i < |kept| ==> RowOf(entity, args, result, offset, kept[i]).Ok?)
      && (r.Ok? ==> (|r.value| == |kept|
            && forall i :: 0 <= i < |kept| ==> r.value[i] == RowOf(entity, args, result, offset, kept[i]).value))
  {
    if offset < |result.recordsets| {
      RowsKept(entity, args, result, offset, parent, result.recordsets[offset]);
    }
  }

  /** `convertFindMany` reads recordset 0 and converts every one of its rows, in order. */
  lemma FindManyRows(entity: Entity, args: Value, result: QueryResult)
    ensures |result.recordsets| == 0 ==> FindMany(entity, args, result) == Err(MissingRecordset)
    ensures |result.recordsets| > 0 ==>
      var r, rows := FindMany(entity, args, result), result.recordsets[0];
      (r.Ok? <==> forall i :: 0 <= i < |rows| ==> RowOf(entity, args, result, 0, rows[i]).Ok?)
      && (r.Ok? ==> (|r.value| == |rows|
            && forall i :: 0 <= i < |rows| ==> r.value[i] == RowOf(entity, args, result, 0, rows[i]).value))
  {
    RecordsetRows(entity, args, result, 0, []);
    if |result.recordsets| > 0 {
      KeptRows(result.recordsets[0], []);
    }
  }

  // ---------------------------------------------------------------- rows

  /** A row starts as the selection read without a prefix; `null` or `undefined`
      arguments crash on `args.select`. */
  lemma RowStart(entity: Entity, args: Value, result: QueryResult, offset: nat, row: Fields)
    requires offset < |result.recordsets|
    ensures Nullish(args) ==> RowOf(entity, args, result, offset, row).Err?
    ensures !Nullish(args) && Entries(Prop(args, "include")) == [] ==>
      RowOf(entity, args, result, offset, row) == Ok(Obj(Selection(row, Prop(args, "select"), "")))
  {
  }

  /** One include: an unknown relation crashes on `relation.type`, and a value that
      is not an object throws; otherwise only the include's own key of the item changes. */
  lemma IncludeErrors(entity: Entity, result: QueryResult, offset: nat, row: Fields, item: Fields, e: (string, Value))
    requires offset < |result.recordsets|
    ensures var r, relation := IncludeOf(entity, result, offset, row, item, e), FindRelation(entity.relations, e.0);
      (relation.None? ==> r == Err(MissingRelation))
      && (relation.Some? && TypeOf(e.1) != "object" ==> r == Err(Raised(PendingProjection)))
      && (r.Ok? ==> forall k :: k != e.0 ==> Lookup(r.value, k) == Lookup(item, k))
  {
    var r := IncludeOf(entity, result, offset, row, item, e);
    if r.Ok? {
      var relation := FindRelation(entity.relations, e.0).value;
      var v := if relation.ManyToOne? then Obj(Selection(row, e.1, relation.info.name + "."))
        else Arr(RecordsetOf(relation.joinEntity, e.1, result, offset + 1, KeyRecord(entity, row)).value);
      assert r.value == Put(item, e.0, v);
      forall k | k != e.0
        ensures Lookup(r.value, k) == Lookup(item, k)
      {
        LookupPut(item, e.0, v, k);
      }
    }
  }

  /** A many-to-one object include nests, under the include's name, the row's
      `<name>.` columns for exactly the keys of the include's value, reading no
      recordset. */
  lemma ManyToOneInclude(entity: Entity, result: QueryResult, offset: nat, row: Fields, item: Fields, e: (string, Value))
    requires offset < |result.recordsets|
    requires FindRelation(entity.relations, e.0).Some? && FindRelation(entity.relations, e.0).value.ManyToOne?
    requires TypeOf(e.1) == "object"
    ensures var r := IncludeOf(entity, result, offset, row, item, e);
      r.Ok? && Lookup(r.value, e.0).Obj?
      && (forall k :: k in Keys(Lookup(r.value, e.0).fields) <==> k in Keys(Entries(e.1)))
      && (forall k :: k in Keys(Entries(e.1)) ==> Lookup(Lookup(r.value, e.0).fields, k) == Lookup(row, e.0 + "." + k))
  {
    var r := IncludeOf(entity, result, offset, row, item, e);
    var nested := Selection(row, e.1, e.0 + ".");
    assert r == Ok(Put(item, e.0, Obj(nested)));
    LookupPut(item, e.0, Obj(nested), e.0);
    forall k
      ensures k in Keys(nested) <==> k in Keys(Entries(e.1))
    {
      SelectKeys(row, e.0 + ".", Entries(e.1), k);
    }
    forall k | k in Keys(Entries(e.1))
      ensures Lookup(nested, k) == Lookup(row, e.0 + "." + k)
    {
      SelectValues(row, e.0 + ".", Entries(e.1), k);
    }
  }

  /** A to-many object include holds, under the include's name, the children read
      from recordset `offset + 1` whatever include of the row it is, correlated by the
      row's key record; it fails exactly when reading them does. */
  lemma ToManyInclude(entity: Entity, result: QueryResult, offset: nat, row: Fields, item: Fields, e: (string, Value))
    requires offset < |result.recordsets|
    requires FindRelation(entity.relations, e.0).Some? && !FindRelation(entity.relations, e.0).value.ManyToOne?
    requires TypeOf(e.1) == "object"
    ensures var r := IncludeOf(entity, result, offset, row, item, e);
      var children := RecordsetOf(FindRelation(entity.relations, e.0).value.joinEntity, e.1, result, offset + 1, KeyRecord(entity, row));
      (r.Ok? <==> children.Ok?) && (r.Ok? ==> Lookup(r.value, e.0) == Arr(children.value))
  {
    var r := IncludeOf(entity, result, offset, row, item, e);
    var children := RecordsetOf(FindRelation(entity.relations, e.0).value.joinEntity, e.1, result, offset + 1, KeyRecord(entity, row));
    assert r == if children.Err? then Err(children.error) else Ok(Put(item, e.0, Arr(children.value)));
    if r.Ok? {
      LookupPut(item, e.0, Arr(children.value), e.0);
    }
  }

  // ---------------------------------------------------------------- mutations and aggregates

  /** Steps that agree on every input fold alike. */
  lemma {:induction false} FoldResultAlike<S, X>(f: (S, X) -> Result<S>, g: (S, X) -> Result<S>, init: S, xs: seq<X>)
    requires forall s, x :: f(s, x) == g(s, x)
    ensures FoldResult(f, init, xs) == FoldResult(g, init, xs)
  {
    if xs != [] {
      FoldResultAlike(f, g, init, xs[..|xs| - 1]);
    }
  }

  /** The conversion reads its arguments only through `select` and `include`. */
  lemma FindManyReadsProjection(entity: Entity, a: Value, b: Value, result: QueryResult)
    requires !Nullish(a) && !Nullish(b)
    requires Prop(a, "select") == Prop(b, "select") && Prop(a, "include") == Prop(b, "include")
    ensures FindMany(entity, a, result) == FindMany(entity, b, result)
  {
    if |result.recordsets| > 0 {
      var f := RowsStep(entity, a, result, 0, []);
      var g := RowsStep(entity, b, result, 0, []);
      forall s, x
        ensures f(s, x) == g(s, x)
      {
        assert RowOf(entity, a, result, 0, x) == RowOf(entity, b, result, 0, x);
      }
      FoldResultAlike(f, g, [], result.recordsets[0]);
    }
  }

  /** `convertMutationMany`: the count is the sum of the rows each statement touched;
      the rows are read back exactly when the arguments hold an `include` or a
      `select` key, with the same projection the update and delete builders read
      them back with; arguments that are not objects crash on `in`. */
  lemma MutationShape(entity: Entity, args: Value, result: QueryResult)
    ensures var r := MutationMany(entity, args, result);
      (r.Ok? ==> r.value.count == Sum(result.rowsAffected))
      && (!(args.Obj? || args.Arr? || args.Date?) ==> r.Err?)
    ensures args.Obj? ==>
      var r, projected := MutationMany(entity, args, result), "include" in Keys(args.fields) || "select" in Keys(args.fields);
      (r.Ok? <==> !projected || FindMany(entity, Projection(args), result).Ok?)
      && (r.Ok? ==> (r.value.returning.Some? <==> projected))
      && (r.Ok? && projected ==> r.value.returning.value == FindMany(entity, Projection(args), result).value)
  {
    if args.Obj? {
      assert Lookup(MutationProjection(args).fields, "select") == Prop(args, "select");
      assert Lookup(Projection(args).fields, "include") == Prop(args, "include");
      FindManyReadsProjection(entity, MutationProjection(args), Projection(args), result);
    }
  }

  /** `convertAggregate`: the answer holds `count` exactly when it was asked for, read
      from the first row, and nothing else; asking for it without a first row crashes. */
  lemma AggregateShape(args: Value, result: QueryResult)
    ensures !(args.Obj? || args.Arr? || args.Date?) ==> Aggregate(args, result).Err?
    ensures args.Obj? ==>
      var r, asked := Aggregate(args, result), "count" in Keys(args.fields);
      (r.Ok? <==> !asked || |result.recordset| > 0)
      && (r.Ok? ==> Keys(r.value) == (if asked then ["count"] else []))
      && (r.Ok? && asked ==> Lookup(r.value, "count") == Lookup(result.recordset[0], "count"))
  {
  }
}
