/** `ObjectExpander` (`object-expander.ts`): rebuilds the objects of a projection tree
    from the flat recordsets of the `criteria-builder.ts` queries. Plain fields are copied
    from the row, many-to-one expansions nest the same row's dotted columns, and
    one-to-many expansions read the next recordset in pre-order, keeping the rows
    whose `__parent…` column matches the parent row. It also expands the dotted keys
    of a flat object into nested objects. */
module ObjectExpander {
  import opened Js
  import opened LegacySchema

  /** The parent side of a one-to-many expansion: the relation and the parent row. */
  datatype ParentLink = ParentLink(relation: SqlRelation, item: Fields)

  /** `buildReadOutput`'s answer: the objects, and the last recordset index consumed. */
  datatype ReadResult = ReadResult(result: seq<Value>, currentIndex: nat)

  /** `expandObject`'s answer: the object, and the last recordset index consumed. */
  datatype Expanded = Expanded(item: Fields, currentIndex: nat)

  const UnexpectedField := "Unexpected field name"

  /** `for (const item of recordsets[index])` past the last recordset. */
  const NotIterable := TypeError("undefined is not iterable")

  /** `entity.oneToManies` on an entity that was not found. */
  const UndefinedEntity := TypeError("Cannot read properties of undefined")

  function NotFoundEntity(name: string): string
  {
    "Not found registered entity with name: " + name
  }

  function Max(a: nat, b: nat): nat
  {
    if a < b then b else a
  }

  /** The parent row's key column: `<prefix>__<source field>`. */
  function SourceKey(prefix: string, relation: SqlRelation): string
  {
    prefix + "__" + relation.source.field.name
  }

  /** The child row's key column: `__parent`, then `__` under a prefix, then the source key. */
  function ParentKey(prefix: string, relation: SqlRelation): string
  {
    "__parent" + (if |prefix| > 0 then "__" else "") + SourceKey(prefix, relation)
  }

  /** `preffix ? preffix + '.' : ''` */
  function Dotted(prefix: string): string
  {
    if prefix != "" then prefix + "." else ""
  }

  // ---------------------------------------------------------------- the specification

  /** Whether a row belongs to the parent: both key columns must be present, and then
      they must be strictly equal. Without a parent every row belongs. */
  function ParentFilter(parent: Option<ParentLink>, prefix: string, row: Fields): Result<bool>
  {
    if parent.None? then Ok(true)
    else
      var sourceKey := SourceKey(prefix, parent.value.relation);
      var parentKey := ParentKey(prefix, parent.value.relation);
      var destValue := Lookup(row, parentKey);
      var parentValue := Lookup(parent.value.item, sourceKey);
      if destValue == Undefined then Err(Raised("Dest field " + parentKey + " not projeted from query"))
      else if parentValue == Undefined then Err(Raised("Parent field " + sourceKey + " not projeted from query"))
      else Ok(StrictEq(parentValue, destValue))
  }

  /** `buildReadOutput`: the entity comes from the parent relation's destination model,
      or, at the top, from the projection's name. */
  function ReadOutputOf(entities: seq<SqlEntity>, p: Projection, recordsets: seq<seq<Fields>>, parent: Option<ParentLink>,
                        prefix: string, index: nat): (r: Result<ReadResult>)
    requires p.Expand?
    ensures r.Ok? ==> index <= r.value.currentIndex < |recordsets|
    decreases p, 2
  {
    var entity := if parent.Some? then EntityOfModel(entities, parent.value.relation.dest.model) else EntityNamed(entities, p.name);
    if entity.None? then Err(Raised(NotFoundEntity(p.name)))
    else if index >= |recordsets| then Err(NotIterable)
    else ReadRowsOf(entities, entity.value, p, recordsets, parent, prefix, index, recordsets[index])
  }

  /** The row loop of `buildReadOutput` over the first rows of the recordset: every
      row is expanded from the same index, and the answer's index is the largest
      one reached. */
  function ReadRowsOf(entities: seq<SqlEntity>, entity: SqlEntity, p: Projection, recordsets: seq<seq<Fields>>,
                      parent: Option<ParentLink>, prefix: string, index: nat, rows: seq<Fields>): (r: Result<ReadResult>)
    requires p.Expand? && index < |recordsets|
    ensures r.Ok? ==> index <= r.value.currentIndex < |recordsets|
    decreases p, 1, |rows|
  {
    if rows == [] then Ok(ReadResult([], index))
    else
      var prev :- ReadRowsOf(entities, entity, p, recordsets, parent, prefix, index, rows[..|rows| - 1]);
      var row := rows[|rows| - 1];
      var keep :- ParentFilter(parent, prefix, row);
      if !keep then Ok(prev)
      else
        var e :- ExpandedOf(entities, Some(entity), p, recordsets, index, row, "");
        Ok(ReadResult(prev.result + [Obj(e.item)], Max(prev.currentIndex, e.currentIndex)))
  }

  /** `expandObject` */
  function ExpandedOf(entities: seq<SqlEntity>, entity: Option<SqlEntity>, p: Projection, recordsets: seq<seq<Fields>>,
                      index: nat, row: Fields, prefix: string): (r: Result<Expanded>)
    requires p.Expand?
    ensures r.Ok? ==> r.value.currentIndex == index || index < r.value.currentIndex < |recordsets|
    decreases p, 0, |p.fields| + 1
  {
    ExpandFrom(entities, entity, p, recordsets, Expanded([], index), row, prefix, 0)
  }

  /** The field loop of `expandObject` from field `i` on, given what the earlier
      fields built. */
  function ExpandFrom(entities: seq<SqlEntity>, entity: Option<SqlEntity>, p: Projection, recordsets: seq<seq<Fields>>,
                      prev: Expanded, row: Fields, prefix: string, i: nat): (r: Result<Expanded>)
    requires p.Expand? && i <= |p.fields|
    ensures r.Ok? ==> r.value.currentIndex == prev.currentIndex || prev.currentIndex < r.value.currentIndex < |recordsets|
    decreases p, 0, |p.fields| - i
  {
    if i == |p.fields| then Ok(prev)
    else
      var next :- ExpandFieldOf(entities, entity, p.fields[i], recordsets, prev, row, prefix);
      ExpandFrom(entities, entity, p, recordsets, next, row, prefix, i + 1)
  }

  /** One field of `expandObject`: a plain field copies the row's dotted column, an
      expansion follows the entity's relation of that name. */
  function ExpandFieldOf(entities: seq<SqlEntity>, entity: Option<SqlEntity>, field: Projection, recordsets: seq<seq<Fields>>,
                         prev: Expanded, row: Fields, prefix: string): (r: Result<Expanded>)
    ensures r.Ok? ==> r.value.currentIndex == prev.currentIndex || prev.currentIndex < r.value.currentIndex < |recordsets|
    decreases field, 4
  {
    match field
    case FieldItem(name) =>
      Ok(Expanded(Put(prev.item, name, Lookup(row, Dotted(prefix) + name)), prev.currentIndex))
    case Expand(_, _, _) =>
      if entity.None? then Err(UndefinedEntity)
      else ExpandRelationOf(entities, entity.value, field, recordsets, prev, row, prefix)
  }

  /** An expansion: a one-to-many relation reads the next recordset index; a
      many-to-one relation nests the same row under a longer prefix. */
  function ExpandRelationOf(entities: seq<SqlEntity>, entity: SqlEntity, field: Projection, recordsets: seq<seq<Fields>>,
                            prev: Expanded, row: Fields, prefix: string): (r: Result<Expanded>)
    requires field.Expand?
    ensures r.Ok? ==> r.value.currentIndex == prev.currentIndex || prev.currentIndex < r.value.currentIndex < |recordsets|
    decreases field, 3
  {
    var oneToMany := RelationOfField(entity.oneToManies, field.name);
    var manyToOne := RelationOfField(entity.manyToOnes, field.name);
    if oneToMany.Some? then
      var out :- ReadOutputOf(entities, field, recordsets, Some(ParentLink(oneToMany.value, row)), prefix, prev.currentIndex + 1);
      Ok(Expanded(Put(prev.item, field.name, Arr(out.result)), out.currentIndex))
    else if manyToOne.Some? then
      var nested :- ExpandedOf(entities, EntityOfModel(entities, manyToOne.value.dest.model), field, recordsets,
                               prev.currentIndex, row, Dotted(prefix) + manyToOne.value.field.name);
      Ok(Expanded(Put(prev.item, field.name, Obj(nested.item)), nested.currentIndex))
    else Err(Raised(UnexpectedField))
  }

  /** `{p0: {p1: … value}}`: the value a dotted key's remaining segments build, every
      level a fresh object. */
  function Nest(path: seq<string>, value: Value): Value
  {
    if path == [] then value else Obj([(path[0], Nest(path[1..], value))])
  }

  /** One key of `simpleExpandObject`: the first segment takes a fresh nest of the
      rest, replacing whatever it held. */
  function SimpleExpandStep(obj: Fields, key: string, value: Value): Fields
  {
    var segments := Split(key, '.');
    Put(obj, segments[0], Nest(segments[1..], value))
  }

  /** `simpleExpandObject` over the first entries of the object. */
  function SimpleExpandOf(entries: Fields): Fields
  {
    if entries == [] then []
    else SimpleExpandStep(SimpleExpandOf(entries[..|entries| - 1]), entries[|entries| - 1].0, entries[|entries| - 1].1)
  }

  /** `path.reduce((o, k) => o?.[k], v)` on plain objects: the value a dotted path
      reaches, `undefined` once it leaves the objects. */
  function ReadPath(v: Value, path: seq<string>): Value
    decreases path
  {
    if path == [] then v
    else if v.Obj? then ReadPath(Lookup(v.fields, path[0]), path[1..])
    else Undefined
  }

  /** The evidently intended step of `simpleExpandObject`: an intermediate object that
      is already there is reused instead of replaced. */
  function SetPath(obj: Fields, path: seq<string>, value: Value): Fields
    requires |path| > 0
    decreases |path|
  {
    if |path| == 1 then Put(obj, path[0], value)
    else
      var child := Lookup(obj, path[0]);
      Put(obj, path[0], Obj(SetPath(if child.Obj? then child.fields else [], path[1..], value)))
  }

  /** The evidently intended `simpleExpandObject`, over the first entries. */
  function MergeExpandOf(entries: Fields): Fields
  {
    if entries == [] then []
    else
      var (key, value) := entries[|entries| - 1];
      SetPath(MergeExpandOf(entries[..|entries| - 1]), Split(key, '.'), value)
  }

  // ---------------------------------------------------------------- the expander

  /** Once the row loop has thrown, the later rows change nothing. */
  lemma {:induction false} ReadRowsStop(entities: seq<SqlEntity>, entity: SqlEntity, p: Projection, recordsets: seq<seq<Fields>>,
                                        parent: Option<ParentLink>, prefix: string, index: nat, rows: seq<Fields>, i: nat)
    requires p.Expand? && index < |recordsets| && i <= |rows|
    requires ReadRowsOf(entities, entity, p, recordsets, parent, prefix, index, rows[..i]).Err?
    ensures ReadRowsOf(entities, entity, p, recordsets, parent, prefix, index, rows) ==
      ReadRowsOf(entities, entity, p, recordsets, parent, prefix, index, rows[..i])
    decreases |rows| - i
  {
    if i == |rows| {
      assert rows[..i] == rows;
    } else {
      assert rows[..i + 1][..i] == rows[..i];
      ReadRowsStop(entities, entity, p, recordsets, parent, prefix, index, rows, i + 1);
    }
  }

  /** `buildReadOutput` */
  method BuildReadOutput(entities: seq<SqlEntity>, p: Projection, recordsets: seq<seq<Fields>>, parent: Option<ParentLink>,
                         prefix: string, index: nat) returns (r: Result<ReadResult>)
    requires p.Expand?
    ensures r == ReadOutputOf(entities, p, recordsets, parent, prefix, index)
    decreases p, 2
  {
    var entity := if parent.Some? then EntityOfModel(entities, parent.value.relation.dest.model) else EntityNamed(entities, p.name);
    if entity.None? {
      return Err(Raised(NotFoundEntity(p.name)));
    }
    if index >= |recordsets| {
      return Err(NotIterable);
    }
    var recordset := recordsets[index];
    var output: seq<Value> := [];
    var upsetIndex: nat := index;
    for i := 0 to |recordset|
      invariant ReadRowsOf(entities, entity.value, p, recordsets, parent, prefix, index, recordset[..i]) == Ok(ReadResult(output, upsetIndex))
    {
      assert recordset[..i + 1][..i] == recordset[..i];
      var item := recordset[i];
      if parent.Some? {
        var sourceKey := SourceKey(prefix, parent.value.relation);
        var parentKey := ParentKey(prefix, parent.value.relation);
        var destValue := Lookup(item, parentKey);
        var parentValue := Lookup(parent.value.item, sourceKey);
        if destValue == Undefined {
          ReadRowsStop(entities, entity.value, p, recordsets, parent, prefix, index, recordset, i + 1);
          return Err(Raised("Dest field " + parentKey + " not projeted from query"));
        }
        if parentValue == Undefined {
          ReadRowsStop(entities, entity.value, p, recordsets, parent, prefix, index, recordset, i + 1);
          return Err(Raised("Parent field " + sourceKey + " not projeted from query"));
        }
        if !StrictEq(parentValue, destValue) {
          continue;
        }
      }
      var resultExpand := ExpandObject(entities, entity, p, recordsets, index, item, "");
      if resultExpand.Err? {
        ReadRowsStop(entities, entity.value, p, recordsets, parent, prefix, index, recordset, i + 1);
        return Err(resultExpand.error);
      }
      if upsetIndex < resultExpand.value.currentIndex {
        upsetIndex := resultExpand.value.currentIndex;
      }
      output := output + [Obj(resultExpand.value.item)];
    }
    assert recordset[..|recordset|] == recordset;
    return Ok(ReadResult(output, upsetIndex));
  }

  /** `expandObject` */
  method ExpandObject(entities: seq<SqlEntity>, entity: Option<SqlEntity>, p: Projection, recordsets: seq<seq<Fields>>,
                      index: nat, row: Fields, prefix: string) returns (r: Result<Expanded>)
    requires p.Expand?
    ensures r == ExpandedOf(entities, entity, p, recordsets, index, row, prefix)
    decreases p, 1
  {
    var current := Expanded([], index);
    for i := 0 to |p.fields|
      invariant ExpandFrom(entities, entity, p, recordsets, current, row, prefix, i) ==
        ExpandedOf(entities, entity, p, recordsets, index, row, prefix)
    {
      var next := ExpandField(entities, entity, p.fields[i], recordsets, current, row, prefix);
      if next.Err? {
        return Err(next.error);
      }
      current := next.value;
    }
    return Ok(current);
  }

  /** The body of the field loop of `expandObject`. */
  method ExpandField(entities: seq<SqlEntity>, entity: Option<SqlEntity>, field: Projection, recordsets: seq<seq<Fields>>,
                     prev: Expanded, row: Fields, prefix: string) returns (r: Result<Expanded>)
    ensures r == ExpandFieldOf(entities, entity, field, recordsets, prev, row, prefix)
    decreases field, 4
  {
    if field.FieldItem? {
      return Ok(Expanded(Put(prev.item, field.name, Lookup(row, Dotted(prefix) + field.name)), prev.currentIndex));
    }
    if entity.None? {
      return Err(UndefinedEntity);
    }
    r := ExpandRelation(entities, entity.value, field, recordsets, prev, row, prefix);
  }

  /** An expansion in the field loop of `expandObject`. */
  method ExpandRelation(entities: seq<SqlEntity>, entity: SqlEntity, field: Projection, recordsets: seq<seq<Fields>>,
                        prev: Expanded, row: Fields, prefix: string) returns (r: Result<Expanded>)
    requires field.Expand?
    ensures r == ExpandRelationOf(entities, entity, field, recordsets, prev, row, prefix)
    decreases field, 3
  {
    var oneToManyRel := RelationOfField(entity.oneToManies, field.name);
    var manyToOneRel := RelationOfField(entity.manyToOnes, field.name);
    if oneToManyRel.Some? {
      var outputResult := BuildReadOutput(entities, field, recordsets, Some(ParentLink(oneToManyRel.value, row)), prefix, prev.currentIndex + 1);
      if outputResult.Err? {
        return Err(outputResult.error);
      }
      return Ok(Expanded(Put(prev.item, field.name, Arr(outputResult.value.result)), outputResult.value.currentIndex));
    } else if manyToOneRel.Some? {
      var entityRel := EntityOfModel(entities, manyToOneRel.value.dest.model);
      var expandResult := ExpandObject(entities, entityRel, field, recordsets, prev.currentIndex, row, Dotted(prefix) + manyToOneRel.value.field.name);
      if expandResult.Err? {
        return Err(expandResult.error);
      }
      return Ok(Expanded(Put(prev.item, field.name, Obj(expandResult.value.item)), expandResult.value.currentIndex));
    } else {
      return Err(Raised(UnexpectedField));
    }
  }

  /** `simpleExpandObject`: each dotted key becomes a nest of objects under its first
      segment. */
  method SimpleExpandObject(obj: Fields) returns (tempObject: Fields)
    ensures tempObject == SimpleExpandOf(obj)
  {
    tempObject := [];
    for i := 0 to |obj|
      invariant tempObject == SimpleExpandOf(obj[..i])
    {
      assert obj[..i + 1][..i] == obj[..i];
      var (keys, value) := obj[i];
      var segments := Split(keys, '.');
      tempObject := Put(tempObject, segments[0], Nest(segments[1..], value));
    }
    assert obj[..|obj|] == obj;
  }
}
