/** What the older materialiser promises: which rows a recordset contributes and in
    what order, where the consumed recordset index ends, how plain fields and
    many-to-one expansions read the same row, and what the dotted-key expansion
    builds, as written and as evidently intended. */
module ObjectExpanderProps {
  import opened Js
  import opened LegacySchema
  import opened ObjectExpander

  // ---------------------------------------------------------------- rows of a recordset

  /** The rows of a recordset that belong to the parent, in order. */
  function Kept(parent: Option<ParentLink>, prefix: string, rows: seq<Fields>): (r: seq<Fields>)
    ensures |r| <= |rows|
    ensures forall x :: x in r ==> x in rows && ParentFilter(parent, prefix, x) == Ok(true)
    ensures forall x :: x in rows && ParentFilter(parent, prefix, x) == Ok(true) ==> x in r
  {
    if rows == [] then []
    else
      var prev := Kept(parent, prefix, rows[..|rows| - 1]);
      if ParentFilter(parent, prefix, rows[|rows| - 1]) == Ok(true) then prev + [rows[|rows| - 1]] else prev
  }

  /** Every row's parent columns can be compared. */
  predicate FiltersOk(parent: Option<ParentLink>, prefix: string, rows: seq<Fields>)
  {
    forall i :: 0 <= i < |rows| ==> ParentFilter(parent, prefix, rows[i]).Ok?
  }

  /** Every row expands without an error. */
  predicate ExpandsOk(entities: seq<SqlEntity>, entity: SqlEntity, p: Projection, recordsets: seq<seq<Fields>>,
                      index: nat, rows: seq<Fields>)
    requires p.Expand?
  {
    forall i :: 0 <= i < |rows| ==> ExpandedOf(entities, Some(entity), p, recordsets, index, rows[i], "").Ok?
  }

  /** At the top there is no parent, and every row is kept. */
  lemma {:induction false} KeptAll(prefix: string, rows: seq<Fields>)
    ensures Kept(None, prefix, rows) == rows
  {
    if rows != [] {
      KeptAll(prefix, rows[..|rows| - 1]);
      assert rows[..|rows| - 1] + [rows[|rows| - 1]] == rows;
    }
  }

  /** The row loop succeeds exactly when every row's parent columns are present and
      every kept row expands; it then holds one object per kept row, in order, each
      expanded from the same recordset index. */
  lemma RowsKept(entities: seq<SqlEntity>, entity: SqlEntity, p: Projection, recordsets: seq<seq<Fields>>,
                 parent: Option<ParentLink>, prefix: string, index: nat, rows: seq<Fields>)
    requires p.Expand? && index < |recordsets|
    ensures var r := ReadRowsOf(entities, entity, p, recordsets, parent, prefix, index, rows);
            var kept := Kept(parent, prefix, rows);
            (r.Ok? ==> FiltersOk(parent, prefix, rows) && ExpandsOk(entities, entity, p, recordsets, index, kept))
            && (FiltersOk(parent, prefix, rows) && ExpandsOk(entities, entity, p, recordsets, index, kept) ==> r.Ok?)
            && (r.Ok? ==> (|r.value.result| == |kept|
                           && forall j :: 0 <= j < |kept| ==>
                                r.value.result[j] == Obj(ExpandedOf(entities, Some(entity), p, recordsets, index, kept[j], "").value.item)))
  {
    RowsRead(entities, entity, p, recordsets, parent, prefix, index, rows);
  }

  /** What the row loop over `rows` yields, as `RowsKept` states it. */
  ghost predicate ReadAsKept(entities: seq<SqlEntity>, entity: SqlEntity, p: Projection, recordsets: seq<seq<Fields>>,
                             parent: Option<ParentLink>, prefix: string, index: nat, rows: seq<Fields>)
    requires p.Expand? && index < |recordsets|
  {
    var r := ReadRowsOf(entities, entity, p, recordsets, parent, prefix, index, rows);
    var kept := Kept(parent, prefix, rows);
    (r.Ok? <==> FiltersOk(parent, prefix, rows) && ExpandsOk(entities, entity, p, recordsets, index, kept))
    && (r.Ok? ==> (|r.value.result| == |kept|
                   && forall j :: 0 <= j < |kept| ==>
                        r.value.result[j] == Obj(ExpandedOf(entities, Some(entity), p, recordsets, index, kept[j], "").value.item)))
  }

  lemma {:induction false} RowsRead(entities: seq<SqlEntity>, entity: SqlEntity, p: Projection, recordsets: seq<seq<Fields>>,
                                    parent: Option<ParentLink>, prefix: string, index: nat, rows: seq<Fields>)
    requires p.Expand? && index < |recordsets|
    ensures ReadAsKept(entities, entity, p, recordsets, parent, prefix, index, rows)
  {
    if rows != [] {
      RowsRead(entities, entity, p, recordsets, parent, prefix, index, rows[..|rows| - 1]);
      RowsReadStep(entities, entity, p, recordsets, parent, prefix, index, rows);
    }
  }

  /** One more row: skipped, failed, or appended after the earlier objects. */
  lemma RowsReadStep(entities: seq<SqlEntity>, entity: SqlEntity, p: Projection, recordsets: seq<seq<Fields>>,
                     parent: Option<ParentLink>, prefix: string, index: nat, rows: seq<Fields>)
    requires p.Expand? && index < |recordsets| && rows != []
    requires ReadAsKept(entities, entity, p, recordsets, parent, prefix, index, rows[..|rows| - 1])
    ensures ReadAsKept(entities, entity, p, recordsets, parent, prefix, index, rows)
  {
    var init := rows[..|rows| - 1];
    var row := rows[|rows| - 1];
    FiltersAppend(parent, prefix, rows);
    if ParentFilter(parent, prefix, row) == Ok(true) {
      RowsReadKeep(entities, entity, p, recordsets, parent, prefix, index, rows);
    } else {
      assert Kept(parent, prefix, rows) == Kept(parent, prefix, init);
    }
  }

  lemma FiltersAppend(parent: Option<ParentLink>, prefix: string, rows: seq<Fields>)
    requires rows != []
    ensures FiltersOk(parent, prefix, rows)
            <==> FiltersOk(parent, prefix, rows[..|rows| - 1]) && ParentFilter(parent, prefix, rows[|rows| - 1]).Ok?
  {
    assert forall i :: 0 <= i < |rows| - 1 ==> rows[..|rows| - 1][i] == rows[i];
  }

  /** A kept row: the loop fails with it or appends its object. */
  lemma RowsReadKeep(entities: seq<SqlEntity>, entity: SqlEntity, p: Projection, recordsets: seq<seq<Fields>>,
                     parent: Option<ParentLink>, prefix: string, index: nat, rows: seq<Fields>)
    requires p.Expand? && index < |recordsets| && rows != []
    requires ParentFilter(parent, prefix, rows[|rows| - 1]) == Ok(true)
    requires FiltersOk(parent, prefix, rows) <==> FiltersOk(parent, prefix, rows[..|rows| - 1])
    requires ReadAsKept(entities, entity, p, recordsets, parent, prefix, index, rows[..|rows| - 1])
    ensures ReadAsKept(entities, entity, p, recordsets, parent, prefix, index, rows)
  {
    var keptInit := Kept(parent, prefix, rows[..|rows| - 1]);
    var row := rows[|rows| - 1];
    assert Kept(parent, prefix, rows) == keptInit + [row];
    ExpandsAppend(entities, entity, p, recordsets, index, keptInit, row);
    var prev := ReadRowsOf(entities, entity, p, recordsets, parent, prefix, index, rows[..|rows| - 1]);
    var e := ExpandedOf(entities, Some(entity), p, recordsets, index, row, "");
    if prev.Ok? && e.Ok? {
      ObjectsAppend(entities, entity, p, recordsets, index, keptInit, row, prev.value.result, Obj(e.value.item));
    }
  }

  lemma ExpandsAppend(entities: seq<SqlEntity>, entity: SqlEntity, p: Projection, recordsets: seq<seq<Fields>>,
                      index: nat, kept: seq<Fields>, row: Fields)
    requires p.Expand?
    ensures ExpandsOk(entities, entity, p, recordsets, index, kept + [row])
            <==> ExpandsOk(entities, entity, p, recordsets, index, kept) && ExpandedOf(entities, Some(entity), p, recordsets, index, row, "").Ok?
  {
    assert (kept + [row])[|kept|] == row;
    assert forall j :: 0 <= j < |kept| ==> (kept + [row])[j] == kept[j];
  }

  lemma ObjectsAppend(entities: seq<SqlEntity>, entity: SqlEntity, p: Projection, recordsets: seq<seq<Fields>>,
                      index: nat, kept: seq<Fields>, row: Fields, out: seq<Value>, item: Value)
    requires p.Expand? && ExpandsOk(entities, entity, p, recordsets, index, kept)
    requires |out| == |kept| && forall j :: 0 <= j < |kept| ==>
               out[j] == Obj(ExpandedOf(entities, Some(entity), p, recordsets, index, kept[j], "").value.item)
    requires ExpandedOf(entities, Some(entity), p, recordsets, index, row, "").Ok?
    requires item == Obj(ExpandedOf(entities, Some(entity), p, recordsets, index, row, "").value.item)
    ensures forall j :: 0 <= j < |kept| + 1 ==>
              (out + [item])[j] == Obj(ExpandedOf(entities, Some(entity), p, recordsets, index, (kept + [row])[j], "").value.item)
  {
    assert forall j :: 0 <= j < |kept| ==> (kept + [row])[j] == kept[j] && (out + [item])[j] == out[j];
  }

  /** The index the row loop ends at is the largest index any kept row reached, or
      its own index when no row went further. */
  lemma RowsIndex(entities: seq<SqlEntity>, entity: SqlEntity, p: Projection, recordsets: seq<seq<Fields>>,
                  parent: Option<ParentLink>, prefix: string, index: nat, rows: seq<Fields>)
    requires p.Expand? && index < |recordsets|
    ensures var r := ReadRowsOf(entities, entity, p, recordsets, parent, prefix, index, rows);
            var kept := Kept(parent, prefix, rows);
            r.Ok? ==> (ExpandsOk(entities, entity, p, recordsets, index, kept)
                       && (forall j :: 0 <= j < |kept| ==>
                             ExpandedOf(entities, Some(entity), p, recordsets, index, kept[j], "").value.currentIndex <= r.value.currentIndex)
                       && (r.value.currentIndex == index
                           || exists j :: 0 <= j < |kept| &&
                                ExpandedOf(entities, Some(entity), p, recordsets, index, kept[j], "").value.currentIndex == r.value.currentIndex))
  {
    RowsKept(entities, entity, p, recordsets, parent, prefix, index, rows);
    RowsIndexRead(entities, entity, p, recordsets, parent, prefix, index, rows);
  }

  /** The index bound of `RowsIndex`, for a loop that succeeded on rows that all expand. */
  ghost predicate IndexReached(entities: seq<SqlEntity>, entity: SqlEntity, p: Projection, recordsets: seq<seq<Fields>>,
                               parent: Option<ParentLink>, prefix: string, index: nat, rows: seq<Fields>)
    requires p.Expand? && index < |recordsets|
  {
    var r := ReadRowsOf(entities, entity, p, recordsets, parent, prefix, index, rows);
    var kept := Kept(parent, prefix, rows);
    r.Ok? && ExpandsOk(entities, entity, p, recordsets, index, kept) ==>
      (forall j :: 0 <= j < |kept| ==>
         ExpandedOf(entities, Some(entity), p, recordsets, index, kept[j], "").value.currentIndex <= r.value.currentIndex)
      && (r.value.currentIndex == index
          || exists j :: 0 <= j < |kept| &&
               ExpandedOf(entities, Some(entity), p, recordsets, index, kept[j], "").value.currentIndex == r.value.currentIndex)
  }

  lemma {:induction false} RowsIndexRead(entities: seq<SqlEntity>, entity: SqlEntity, p: Projection, recordsets: seq<seq<Fields>>,
                                         parent: Option<ParentLink>, prefix: string, index: nat, rows: seq<Fields>)
    requires p.Expand? && index < |recordsets|
    ensures IndexReached(entities, entity, p, recordsets, parent, prefix, index, rows)
  {
    if rows != [] {
      RowsIndexRead(entities, entity, p, recordsets, parent, prefix, index, rows[..|rows| - 1]);
      RowsIndexStep(entities, entity, p, recordsets, parent, prefix, index, rows);
    }
  }

  /** One more row keeps the bound: a skipped row changes nothing, a kept one raises the
      index to the larger of the two. */
  lemma RowsIndexStep(entities: seq<SqlEntity>, entity: SqlEntity, p: Projection, recordsets: seq<seq<Fields>>,
                      parent: Option<ParentLink>, prefix: string, index: nat, rows: seq<Fields>)
    requires p.Expand? && index < |recordsets| && rows != []
    requires IndexReached(entities, entity, p, recordsets, parent, prefix, index, rows[..|rows| - 1])
    ensures IndexReached(entities, entity, p, recordsets, parent, prefix, index, rows)
  {
    var r := ReadRowsOf(entities, entity, p, recordsets, parent, prefix, index, rows);
    var row := rows[|rows| - 1];
    if r.Ok? {
      if ParentFilter(parent, prefix, row) == Ok(true) {
        RowsIndexKeep(entities, entity, p, recordsets, parent, prefix, index, rows);
      } else {
        assert Kept(parent, prefix, rows) == Kept(parent, prefix, rows[..|rows| - 1]);
      }
    }
  }

  lemma RowsIndexKeep(entities: seq<SqlEntity>, entity: SqlEntity, p: Projection, recordsets: seq<seq<Fields>>,
                      parent: Option<ParentLink>, prefix: string, index: nat, rows: seq<Fields>)
    requires p.Expand? && index < |recordsets| && rows != []
    requires ParentFilter(parent, prefix, rows[|rows| - 1]) == Ok(true)
    requires ReadRowsOf(entities, entity, p, recordsets, parent, prefix, index, rows).Ok?
    requires IndexReached(entities, entity, p, recordsets, parent, prefix, index, rows[..|rows| - 1])
    ensures IndexReached(entities, entity, p, recordsets, parent, prefix, index, rows)
  {
    var init := rows[..|rows| - 1];
    var row := rows[|rows| - 1];
    var keptInit := Kept(parent, prefix, init);
    var kept := Kept(parent, prefix, rows);
    var prev := ReadRowsOf(entities, entity, p, recordsets, parent, prefix, index, init);
    var e := ExpandedOf(entities, Some(entity), p, recordsets, index, row, "");
    var r := ReadRowsOf(entities, entity, p, recordsets, parent, prefix, index, rows);
    assert r.value.currentIndex == Max(prev.value.currentIndex, e.value.currentIndex);
    assert kept == keptInit + [row];
    ExpandsAppend(entities, entity, p, recordsets, index, keptInit, row);
    assert forall j :: 0 <= j < |keptInit| ==> kept[j] == keptInit[j];
    assert kept[|kept| - 1] == row;
  }

  /** The top level reads every row of its recordset, in order. */
  lemma TopRows(entities: seq<SqlEntity>, entity: SqlEntity, p: Projection, recordsets: seq<seq<Fields>>,
                index: nat, rows: seq<Fields>)
    requires p.Expand? && index < |recordsets|
    ensures var r := ReadRowsOf(entities, entity, p, recordsets, None, "", index, rows);
            (r.Ok? <==> ExpandsOk(entities, entity, p, recordsets, index, rows))
            && (r.Ok? ==> (|r.value.result| == |rows|
                           && forall j :: 0 <= j < |rows| ==>
                                r.value.result[j] == Obj(ExpandedOf(entities, Some(entity), p, recordsets, index, rows[j], "").value.item)))
  {
    KeptAll("", rows);
    RowsKept(entities, entity, p, recordsets, None, "", index, rows);
  }

  /** A child row belongs to its parent row when both key columns are present and
      strictly equal; a missing one is an error naming the column. */
  lemma ParentColumns(link: ParentLink, prefix: string, row: Fields)
    ensures var sourceKey := SourceKey(prefix, link.relation);
            var parentKey := ParentKey(prefix, link.relation);
            var f := ParentFilter(Some(link), prefix, row);
            (f == Ok(true) <==> Lookup(row, parentKey) != Undefined && Lookup(link.item, sourceKey) != Undefined
                                && StrictEq(Lookup(link.item, sourceKey), Lookup(row, parentKey)))
            && (Lookup(row, parentKey) == Undefined ==> f == Err(Raised("Dest field " + parentKey + " not projeted from query")))
            && (Lookup(row, parentKey) != Undefined && Lookup(link.item, sourceKey) == Undefined ==>
                  f == Err(Raised("Parent field " + sourceKey + " not projeted from query")))
            && parentKey == "__parent" + (if prefix == "" then "" else "__") + prefix + "__" + link.relation.source.field.name
  {
  }

  // ---------------------------------------------------------------- fields of a row

  /** Every field of the projection is a plain field. */
  predicate Flat(p: Projection)
    requires p.Expand?
  {
    forall j :: 0 <= j < |p.fields| ==> p.fields[j].FieldItem?
  }

  /** The object plain fields `i..` build on top of `item`. */
  function FlatItems(fields: seq<Projection>, row: Fields, prefix: string, item: Fields, i: nat): Fields
    decreases |fields| - i
  {
    if i >= |fields| then item
    else FlatItems(fields, row, prefix, Put(item, fields[i].name, Lookup(row, Dotted(prefix) + fields[i].name)), i + 1)
  }

  /** The field loop over plain fields consumes no recordset and builds `FlatItems`. */
  lemma {:induction false} FlatFrom(entities: seq<SqlEntity>, entity: Option<SqlEntity>, p: Projection, recordsets: seq<seq<Fields>>,
                                    prev: Expanded, row: Fields, prefix: string, i: nat)
    requires p.Expand? && Flat(p) && i <= |p.fields|
    ensures ExpandFrom(entities, entity, p, recordsets, prev, row, prefix, i) ==
      Ok(Expanded(FlatItems(p.fields, row, prefix, prev.item, i), prev.currentIndex))
    decreases |p.fields| - i
  {
    if i < |p.fields| {
      var name := p.fields[i].name;
      var next := Expanded(Put(prev.item, name, Lookup(row, Dotted(prefix) + name)), prev.currentIndex);
      assert ExpandFieldOf(entities, entity, p.fields[i], recordsets, prev, row, prefix) == Ok(next);
      FlatFrom(entities, entity, p, recordsets, next, row, prefix, i + 1);
    }
  }

  /** Each named key takes the row's prefixed column; the other keys keep theirs. */
  lemma {:induction false} FlatLookup(fields: seq<Projection>, row: Fields, prefix: string, item: Fields, i: nat, n: string)
    requires i <= |fields|
    ensures Lookup(FlatItems(fields, row, prefix, item, i), n) ==
      if exists j :: i <= j < |fields| && fields[j].name == n then Lookup(row, Dotted(prefix) + n)
      else Lookup(item, n)
    decreases |fields| - i
  {
    if i < |fields| {
      var name := fields[i].name;
      var next := Put(item, name, Lookup(row, Dotted(prefix) + name));
      FlatLookup(fields, row, prefix, next, i + 1, n);
      LookupPut(item, name, Lookup(row, Dotted(prefix) + name), n);
      if n == name {
        assert fields[i].name == n;
      } else if exists j :: i <= j < |fields| && fields[j].name == n {
        var j :| i <= j < |fields| && fields[j].name == n;
        assert j != i;
      }
    }
  }

  /** A projection of plain fields: the object holds the row's prefixed column under
      each field's name, and no other key, and no recordset is consumed. */
  lemma FlatExpand(entities: seq<SqlEntity>, entity: Option<SqlEntity>, p: Projection, recordsets: seq<seq<Fields>>,
                   index: nat, row: Fields, prefix: string)
    requires p.Expand? && Flat(p)
    ensures var r := ExpandedOf(entities, entity, p, recordsets, index, row, prefix);
            r.Ok? && r.value.currentIndex == index
            && forall n :: Lookup(r.value.item, n) ==
                 if exists j :: 0 <= j < |p.fields| && p.fields[j].name == n then Lookup(row, Dotted(prefix) + n)
                 else Undefined
  {
    FlatFrom(entities, entity, p, recordsets, Expanded([], index), row, prefix, 0);
    forall n
      ensures Lookup(FlatItems(p.fields, row, prefix, [], 0), n) ==
        if exists j :: 0 <= j < |p.fields| && p.fields[j].name == n then Lookup(row, Dotted(prefix) + n) else Undefined
    {
      FlatLookup(p.fields, row, prefix, [], 0, n);
    }
  }

  /** A many-to-one expansion of plain fields nests the same row's columns under
      `<prefix>.<relation>.`, and consumes no recordset. */
  lemma ManyToOneNests(entities: seq<SqlEntity>, entity: SqlEntity, field: Projection, recordsets: seq<seq<Fields>>,
                       prev: Expanded, row: Fields, prefix: string)
    requires field.Expand? && Flat(field) && field.name != ""
    requires RelationOfField(entity.oneToManies, field.name).None?
    requires RelationOfField(entity.manyToOnes, field.name).Some?
    ensures var r := ExpandRelationOf(entities, entity, field, recordsets, prev, row, prefix);
            r.Ok? && r.value.currentIndex == prev.currentIndex
            && Lookup(r.value.item, field.name).Obj?
            && forall j :: 0 <= j < |field.fields| ==>
                 Lookup(Lookup(r.value.item, field.name).fields, field.fields[j].name) ==
                 Lookup(row, Dotted(prefix) + field.name + "." + field.fields[j].name)
  {
    var rel := RelationOfField(entity.manyToOnes, field.name).value;
    var inner := Dotted(prefix) + rel.field.name;
    var target := EntityOfModel(entities, rel.dest.model);
    FlatExpand(entities, target, field, recordsets, prev.currentIndex, row, inner);
    var nested := ExpandedOf(entities, target, field, recordsets, prev.currentIndex, row, inner).value;
    var r := ExpandRelationOf(entities, entity, field, recordsets, prev, row, prefix);
    assert r == Ok(Expanded(Put(prev.item, field.name, Obj(nested.item)), nested.currentIndex));
    LookupPut(prev.item, field.name, Obj(nested.item), field.name);
    assert Dotted(inner) == Dotted(prefix) + field.name + ".";
    forall j | 0 <= j < |field.fields|
      ensures Lookup(nested.item, field.fields[j].name) == Lookup(row, Dotted(prefix) + field.name + "." + field.fields[j].name)
    {
      assert exists k :: 0 <= k < |field.fields| && field.fields[k].name == field.fields[j].name;
    }
  }

  /** A one-to-many expansion reads the recordset after the last one consumed, in
      pre-order, and ends strictly further on. */
  lemma OneToManyAdvances(entities: seq<SqlEntity>, entity: SqlEntity, field: Projection, recordsets: seq<seq<Fields>>,
                          prev: Expanded, row: Fields, prefix: string)
    requires field.Expand?
    requires RelationOfField(entity.oneToManies, field.name).Some?
    ensures var rel := RelationOfField(entity.oneToManies, field.name).value;
            var out := ReadOutputOf(entities, field, recordsets, Some(ParentLink(rel, row)), prefix, prev.currentIndex + 1);
            var r := ExpandRelationOf(entities, entity, field, recordsets, prev, row, prefix);
            (r.Ok? <==> out.Ok?)
            && (r.Ok? ==> (prev.currentIndex < r.value.currentIndex < |recordsets|
                           && r.value.currentIndex == out.value.currentIndex
                           && Lookup(r.value.item, field.name) == Arr(out.value.result)))
  {
    var rel := RelationOfField(entity.oneToManies, field.name).value;
    var out := ReadOutputOf(entities, field, recordsets, Some(ParentLink(rel, row)), prefix, prev.currentIndex + 1);
    var r := ExpandRelationOf(entities, entity, field, recordsets, prev, row, prefix);
    if out.Ok? {
      assert r == Ok(Expanded(Put(prev.item, field.name, Arr(out.value.result)), out.value.currentIndex));
      LookupPut(prev.item, field.name, Arr(out.value.result), field.name);
    } else {
      assert r == Err(out.error);
    }
  }

  // ---------------------------------------------------------------- dotted keys

  /** The first segment of a dotted key. */
  function Head(key: string): string
  {
    Split(key, '.')[0]
  }

  /** No two keys start with the same segment. */
  predicate DistinctHeads(entries: Fields)
  {
    forall i, j :: 0 <= i < j < |entries| ==> Head(entries[i].0) != Head(entries[j].0)
  }

  /** Neither of two paths is a prefix of the other: they part at some segment. */
  predicate Diverge(p: seq<string>, q: seq<string>)
    decreases |p|
  {
    |p| > 0 && |q| > 0 && (p[0] != q[0] || Diverge(p[1..], q[1..]))
  }

  /** No key's path is a prefix of another's. */
  predicate PathsDiverge(entries: Fields)
  {
    forall i, j :: 0 <= i < |entries| && 0 <= j < |entries| && i != j ==>
      Diverge(Split(entries[i].0, '.'), Split(entries[j].0, '.'))
  }

  /** A nest reads back its value along its own path. */
  lemma {:induction false} NestReads(path: seq<string>, value: Value)
    ensures ReadPath(Nest(path, value), path) == value
  {
    if path != [] {
      NestReads(path[1..], value);
    }
  }

  /** A first segment no key starts with is absent from the expansion. */
  lemma {:induction false} SimpleAbsent(entries: Fields, k: string)
    requires forall i :: 0 <= i < |entries| ==> Head(entries[i].0) != k
    ensures Lookup(SimpleExpandOf(entries), k) == Undefined
  {
    if entries != [] {
      var init := entries[..|entries| - 1];
      var (key, value) := entries[|entries| - 1];
      assert forall i :: 0 <= i < |init| ==> init[i] == entries[i];
      SimpleAbsent(init, k);
      LookupPut(SimpleExpandOf(init), Head(key), Nest(Split(key, '.')[1..], value), k);
    }
  }

  /** As written, the expansion is right when no two keys share a first segment:
      every key reads back its value along its dotted path. */
  lemma {:induction false} SimpleExpandReads(entries: Fields, i: nat)
    requires DistinctHeads(entries) && i < |entries|
    ensures ReadPath(Obj(SimpleExpandOf(entries)), Split(entries[i].0, '.')) == entries[i].1
  {
    var n := |entries| - 1;
    var init := entries[..n];
    var (key, value) := entries[n];
    var segments := Split(entries[i].0, '.');
    var before := SimpleExpandOf(init);
    LookupPut(before, Head(key), Nest(Split(key, '.')[1..], value), segments[0]);
    if i == n {
      NestReads(Split(key, '.')[1..], value);
    } else {
      assert init[i] == entries[i];
      assert forall a, b :: 0 <= a < b < |init| ==> init[a] == entries[a] && init[b] == entries[b];
      SimpleExpandReads(init, i);
    }
  }

  /** The discrepancy: two keys under one first segment, and the first is lost. */
  lemma SimpleExpandDropsSibling()
    ensures SimpleExpandOf([("p.a", Num(1)), ("p.b", Num(2))]) == [("p", Obj([("b", Num(2))]))]
    ensures ReadPath(Obj(SimpleExpandOf([("p.a", Num(1)), ("p.b", Num(2))])), ["p", "a"]) == Undefined
  {
    SplitPair("p", "a");
    SplitPair("p", "b");
    var entries := [("p.a", Num(1)), ("p.b", Num(2))];
    assert entries[..1] == [("p.a", Num(1))];
    assert SimpleExpandOf(entries[..1]) == [("p", Obj([("a", Num(1))]))];
  }

  /** `"<a>.<b>"` splits into its two segments. */
  lemma SplitPair(a: string, b: string)
    requires '.' !in a && '.' !in b
    ensures Split(a + "." + b, '.') == [a, b]
  {
    SplitAt(a, '.', b);
    SplitNoSep(b, '.');
  }

  /** The corrected step reads its value back along its path. */
  lemma {:induction false} SetPathReads(obj: Fields, path: seq<string>, value: Value)
    requires |path| > 0
    ensures ReadPath(Obj(SetPath(obj, path, value)), path) == value
    decreases |path|
  {
    if |path| == 1 {
      LookupPut(obj, path[0], value, path[0]);
    } else {
      var child := Lookup(obj, path[0]);
      var inner := if child.Obj? then child.fields else [];
      LookupPut(obj, path[0], Obj(SetPath(inner, path[1..], value)), path[0]);
      SetPathReads(inner, path[1..], value);
    }
  }

  /** The corrected step leaves every path that parts from its own as it was. */
  lemma {:induction false} SetPathKeeps(obj: Fields, path: seq<string>, value: Value, other: seq<string>)
    requires Diverge(path, other)
    ensures ReadPath(Obj(SetPath(obj, path, value)), other) == ReadPath(Obj(obj), other)
    decreases |path|
  {
    var child := Lookup(obj, path[0]);
    var inner := if child.Obj? then child.fields else [];
    if |path| == 1 {
      LookupPut(obj, path[0], value, other[0]);
    } else {
      LookupPut(obj, path[0], Obj(SetPath(inner, path[1..], value)), other[0]);
      if path[0] == other[0] {
        SetPathKeeps(inner, path[1..], value, other[1..]);
        if !child.Obj? {
          assert ReadPath(Obj([]), other[1..]) == Undefined;
        }
      }
    }
  }

  /** The corrected expansion: every key reads back its value along its dotted path
      whenever no key's path is a prefix of another's, shared first segments included. */
  lemma {:induction false} MergeExpandReads(entries: Fields, i: nat)
    requires PathsDiverge(entries) && i < |entries|
    ensures ReadPath(Obj(MergeExpandOf(entries)), Split(entries[i].0, '.')) == entries[i].1
  {
    var n := |entries| - 1;
    var init := entries[..n];
    var (key, value) := entries[n];
    if i == n {
      SetPathReads(MergeExpandOf(init), Split(key, '.'), value);
    } else {
      assert Diverge(Split(entries[n].0, '.'), Split(entries[i].0, '.'));
      SetPathKeeps(MergeExpandOf(init), Split(key, '.'), value, Split(entries[i].0, '.'));
      assert init[i] == entries[i];
      assert forall a :: 0 <= a < |init| ==> init[a] == entries[a];
      MergeExpandReads(init, i);
    }
  }

  /** The same two keys, corrected: both survive. */
  lemma MergeExpandKeepsSibling()
    ensures ReadPath(Obj(MergeExpandOf([("p.a", Num(1)), ("p.b", Num(2))])), ["p", "a"]) == Num(1)
    ensures ReadPath(Obj(MergeExpandOf([("p.a", Num(1)), ("p.b", Num(2))])), ["p", "b"]) == Num(2)
  {
    SplitPair("p", "a");
    SplitPair("p", "b");
    var entries := [("p.a", Num(1)), ("p.b", Num(2))];
    assert Diverge(["a"], ["b"]);
    assert Diverge(["p", "a"], ["p", "b"]) && Diverge(["p", "b"], ["p", "a"]);
    MergeExpandReads(entries, 0);
    MergeExpandReads(entries, 1);
  }

  /** A corrected step into an empty object builds the same nest as written. */
  lemma {:induction false} SetPathFresh(path: seq<string>, value: Value)
    requires |path| > 0
    ensures Obj(SetPath([], path, value)) == Nest(path, value)
    decreases |path|
  {
    if |path| > 1 {
      SetPathFresh(path[1..], value);
    }
  }

  /** Where the source is right, the correction changes nothing. */
  lemma {:induction false} MergeAgreesWhenHeadsDistinct(entries: Fields)
    requires DistinctHeads(entries)
    ensures MergeExpandOf(entries) == SimpleExpandOf(entries)
  {
    if entries != [] {
      var init := entries[..|entries| - 1];
      var (key, value) := entries[|entries| - 1];
      var segments := Split(key, '.');
      assert forall i :: 0 <= i < |init| ==> init[i] == entries[i];
      MergeAgreesWhenHeadsDistinct(init);
      SimpleAbsent(init, segments[0]);
      if |segments| > 1 {
        SetPathFresh(segments[1..], value);
      }
    }
  }
}
