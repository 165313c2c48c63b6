/** The plan node of an update (`UpdateContextQueryBuilder`) and its rendering: an
    optional staging-table DECLARE, `UPDATE` the target with a row lock and its SET
    list, an optional `OUTPUT INSERTED... INTO` the staging table, WHERE through the
    where builder's renderer, and the read-back statement. */
module UpdateContext {
  import opened Js
  import opened Schema
  import opened FindContext
  import opened WhereBuilder
  import opened DeleteContext

  /** The state of an update context; the renderer reads `set`, here `assignments`
      (`set` is a Dafny keyword). `rows` is not a field of the source's context: its
      constructor never creates one, so the update builder's `context.rows.push(row)`
      fails there on the first data item. The model keeps the row maps the builder
      computes, so that their mapping can be stated. */
  datatype UpdatePlan = UpdatePlan(
    params: Fields,
    entity: Option<Entity>,
    pks: seq<Column>,
    assignments: Fields,
    rows: seq<Fields>,
    returning: Option<FindPlan>,
    tempTable: Option<string>,
    where: seq<Condition>)

  const EmptyUpdate := UpdatePlan([], None, [], [], [], None, None, [])

  /** `toSqlValue`: a number as it is, a string single-quoted with every quote doubled,
      a date as its quoted ISO text, and `undefined` for anything else. */
  function SqlValue(v: Value): Value
  {
    match v
    case Num(_) => v
    case Str(s) => Str("'" + ReplaceAll(s, '\'', "''") + "'")
    case Date(iso) => Str("'" + iso + "'")
    case _ => Undefined
  }

  /** One SET item: `\t[key] = <value>`. */
  function SetLine(key: string, value: Value): string
  {
    "\t" + Bracket(key) + " = " + JsString(SqlValue(value))
  }

  /** One SET item per own property of `set`, in enumeration order. */
  function SetLines(assignments: Fields): (r: seq<string>)
    ensures |r| == |assignments|
    ensures forall k :: 0 <= k < |assignments| ==> r[k] == SetLine(assignments[k].0, Lookup(assignments, assignments[k].0))
  {
    SetItems(assignments, Keys(assignments))
  }

  function SetItems(assignments: Fields, keys: seq<string>): (r: seq<string>)
    ensures |r| == |keys|
    ensures forall k :: 0 <= k < |keys| ==> r[k] == SetLine(keys[k], Lookup(assignments, keys[k]))
  {
    if keys == [] then [] else SetItems(assignments, keys[..|keys| - 1]) + [SetLine(keys[|keys| - 1], Lookup(assignments, keys[|keys| - 1]))]
  }

  /** The staging-table columns, named by the field's accessor name. */
  function UpdateDeclareLines(pks: seq<Column>): (r: seq<string>)
    ensures |r| == |pks|
    ensures forall k :: 0 <= k < |pks| ==> r[k] == DeclareLine(pks[k].info.accessorName, pks[k])
  {
    if pks == [] then [] else UpdateDeclareLines(pks[..|pks| - 1]) + [DeclareLine(pks[|pks| - 1].info.accessorName, pks[|pks| - 1])]
  }

  /** The WHERE keyword and the where builder's rendering of the conditions, nothing
      without conditions, or the error the rendering throws. */
  function UpdateWhereChunks(where: seq<Condition>): Result<seq<string>>
  {
    if |where| == 0 then Ok([])
    else
      var s :- ConditionsSql(where);
      Ok(["WHERE", s])
  }

  /** The chunks `toSql` joins with newlines, or the error it throws. */
  function UpdateLines(p: UpdatePlan): Result<seq<string>>
  {
    if p.entity.None? then Err(UndefinedEntity)
    else
      var where :- UpdateWhereChunks(p.where);
      var returning :- ReturningChunks(p.returning);
      Ok(DeclareChunks(p.tempTable, UpdateDeclareLines(p.pks)) + ["UPDATE " + TargetSql(p.entity.value) + " SET"]
         + [Join(SetLines(p.assignments), ",\n")] + OutputChunks(p.tempTable, p.pks) + where + returning)
  }

  function UpdateSql(p: UpdatePlan): Result<string>
  {
    var lines :- UpdateLines(p);
    Ok(Join(lines, "\n"))
  }

  // ---------------------------------------------------------------- the renderer

  method UpdateDeclareSection(pks: seq<Column>) returns (lines: seq<string>)
    ensures lines == UpdateDeclareLines(pks)
  {
    lines := [];
    for i := 0 to |pks|
      invariant lines == UpdateDeclareLines(pks[..i])
    {
      assert pks[..i + 1][..i] == pks[..i];
      lines := lines + [DeclareLine(pks[i].info.accessorName, pks[i])];
    }
    assert pks[..|pks|] == pks;
  }

  method SetSql(assignments: Fields) returns (s: string)
    ensures s == Join(SetLines(assignments), ",\n")
  {
    var columns := Keys(assignments);
    var items: seq<string> := [];
    for i := 0 to |columns|
      invariant items == SetItems(assignments, columns[..i])
    {
      assert columns[..i + 1][..i] == columns[..i];
      items := items + [SetLine(columns[i], Lookup(assignments, columns[i]))];
    }
    assert columns[..|columns|] == columns;
    s := Join(items, ",\n");
  }

  class UpdateContextQueryBuilder {
    var params: Fields
    var entity: Option<Entity>
    var pks: seq<Column>
    var assignments: Fields
    var rows: seq<Fields>
    var returning: Option<FindPlan>
    var tempTable: Option<string>
    var where: seq<Condition>

    constructor ()
      ensures Plan() == EmptyUpdate
    {
      pks := [];
      assignments := [];
      rows := [];
      where := [];
      returning := None;
      tempTable := None;
      params := [];
      entity := None;
    }

    function Plan(): UpdatePlan
      reads this
    {
      UpdatePlan(params, entity, pks, assignments, rows, returning, tempTable, where)
    }

    /** The filters the where builder leaves behind. */
    method SetFilters(params: Fields, where: seq<Condition>)
      modifies this
      ensures Plan() == old(Plan()).(params := params, where := where)
    {
      this.params := params;
      this.where := where;
    }

    /** `toSql` */
    method ToSql() returns (r: Result<string>)
      ensures r == UpdateSql(Plan())
    {
      var chunks: seq<string> := [];
      if Present(tempTable) {
        var lines := UpdateDeclareSection(pks);
        var declare := ["DECLARE " + tempTable.value + " AS TABLE("] + lines + [")", ""];
        assert [] + declare == declare;
        chunks := chunks + declare;
      }
      assert chunks == DeclareChunks(tempTable, UpdateDeclareLines(pks));
      if entity.None? {
        return Err(UndefinedEntity);
      }
      var target := TargetSql(entity.value);
      chunks := chunks + ["UPDATE " + target + " SET"];
      var items := SetSql(assignments);
      chunks := chunks + [items];
      if Present(tempTable) {
        var outputColumns := OutputColumnsSql(pks);
        chunks := chunks + ["OUTPUT " + outputColumns + " INTO " + tempTable.value];
      }
      assert chunks == DeclareChunks(tempTable, UpdateDeclareLines(pks)) + ["UPDATE " + target + " SET"]
        + [Join(SetLines(assignments), ",\n")] + OutputChunks(tempTable, pks);
      ghost var head := chunks;
      if |where| > 0 {
        var conditions := ConditionsToSql(where);
        if conditions.Err? {
          return Err(conditions.error);
        }
        chunks := chunks + ["WHERE", conditions.value];
      }
      assert UpdateWhereChunks(where).Ok? && chunks == head + UpdateWhereChunks(where).value;
      var tail := ReturningSection(returning);
      if tail.Err? {
        return Err(tail.error);
      }
      chunks := chunks + tail.value;
      assert UpdateLines(Plan()) == Ok(chunks);
      return Ok(Join(chunks, "\n"));
    }
  }
}
