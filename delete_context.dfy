/** The plan node of a delete (`DeleteContextQueryBuilder`) and its rendering: an
    optional staging-table DECLARE, `DELETE FROM` the target with a row lock, an
    optional `OUTPUT INSERTED... INTO` the staging table, WHERE, and the read-back
    statement. The column type declarations of the staging table live here too; the
    update renderer uses the same ones. */
module DeleteContext {
  import opened Js
  import opened Schema
  import opened FindContext

  const UndefinedEntity := TypeError("Cannot read properties of undefined")

  /** The state of a delete context. `entity` is unset until a builder sets it. */
  datatype DeletePlan = DeletePlan(
    params: Fields,
    entity: Option<Entity>,
    pks: seq<Column>,
    returning: Option<FindPlan>,
    tempTable: Option<string>,
    where: seq<Condition>)

  const EmptyDelete := DeletePlan([], None, [], None, None, [])

  // ---------------------------------------------------------------- type declarations

  /** A length argument with a ceiling: `MAX` when absent or above the ceiling. */
  function LengthArg(length: Option<int>, ceiling: int): string
  {
    if length.None? || length.value > ceiling then "MAX" else IntToString(length.value)
  }

  /** A numeric argument with a default for an absent value. */
  function OrDefault(o: Option<int>, default: int): string
  {
    IntToString(if o.Some? then o.value else default)
  }

  /** `toSqlDeclare`: a type's declaration and, for the types that take them, its
      arguments, with SQL Server's defaults filled in. */
  function Declare(t: SqlType, o: ColumnOptions): string
  {
    match t.kind
    case VarChar => t.declaration + " (" + LengthArg(o.length, 8000) + ")"
    case VarBinary => t.declaration + " (" + LengthArg(o.length, 8000) + ")"
    case NVarChar => t.declaration + " (" + LengthArg(o.length, 4000) + ")"
    case Char => t.declaration + " (" + OrDefault(o.length, 1) + ")"
    case NChar => t.declaration + " (" + OrDefault(o.length, 1) + ")"
    case Binary => t.declaration + " (" + OrDefault(o.length, 1) + ")"
    case Decimal => t.declaration + " (" + OrDefault(o.precision, 18) + ", " + OrDefault(o.scale, 0) + ")"
    case Numeric => t.declaration + " (" + OrDefault(o.precision, 18) + ", " + OrDefault(o.scale, 0) + ")"
    case Time => t.declaration + " (" + OrDefault(o.scale, 7) + ")"
    case DateTime2 => t.declaration + " (" + OrDefault(o.scale, 7) + ")"
    case DateTimeOffset => t.declaration + " (" + OrDefault(o.scale, 7) + ")"
    case OtherKind => t.declaration
  }

  /** One staging-table column: `\t[name] <declaration>`. */
  function DeclareLine(name: string, c: Column): string
  {
    "\t" + Bracket(name) + " " + Declare(c.sqlType, c.options)
  }

  /** The staging-table columns, named by the logical field name. */
  function DeclareLines(pks: seq<Column>): (r: seq<string>)
    ensures |r| == |pks|
    ensures forall k :: 0 <= k < |pks| ==> r[k] == DeclareLine(pks[k].info.name, pks[k])
  {
    if pks == [] then [] else DeclareLines(pks[..|pks| - 1]) + [DeclareLine(pks[|pks| - 1].info.name, pks[|pks| - 1])]
  }

  /** The DECLARE block: nothing without a staging table. */
  function DeclareChunks(tempTable: Option<string>, lines: seq<string>): seq<string>
  {
    if Present(tempTable) then ["DECLARE " + tempTable.value + " AS TABLE("] + lines + [")", ""] else []
  }

  // ---------------------------------------------------------------- the statement

  /** The target table with an optional database and schema and a row lock. */
  function TargetSql(e: Entity): string
  {
    (if Present(e.database) then Bracket(e.database.value) + "." else "")
      + (if Present(e.schema) then Bracket(e.schema.value) + "." else "")
      + Bracket(e.tableName) + " WITH(ROWLOCK)"
  }

  function InsertedColumn(c: Column): string
  {
    "INSERTED." + Bracket(c.columnName)
  }

  function InsertedColumns(pks: seq<Column>): (r: seq<string>)
    ensures |r| == |pks|
    ensures forall k :: 0 <= k < |pks| ==> r[k] == InsertedColumn(pks[k])
  {
    if pks == [] then [] else InsertedColumns(pks[..|pks| - 1]) + [InsertedColumn(pks[|pks| - 1])]
  }

  /** The OUTPUT clause: the primary key columns into the staging table, if there is one. */
  function OutputChunks(tempTable: Option<string>, pks: seq<Column>): seq<string>
  {
    if Present(tempTable) then ["OUTPUT " + Join(InsertedColumns(pks), ",") + " INTO " + tempTable.value] else []
  }

  /** The conditions, as a find plan with nothing else, so that the find statement's
      WHERE section renders them. */
  function Filter(where: seq<Condition>): FindPlan
  {
    EmptyPlan.(where := where)
  }

  /** The read-back statement after a blank line, or the error rendering it throws. */
  function ReturningChunks(returning: Option<FindPlan>): Result<seq<string>>
  {
    if returning.None? then Ok([])
    else
      var s :- FindSql(returning.value);
      Ok(["", s])
  }

  /** The chunks `toSql` joins with newlines, or the error it throws. */
  function DeleteLines(p: DeletePlan): Result<seq<string>>
  {
    if p.entity.None? then Err(UndefinedEntity)
    else if HasSubtree(p.where) then Err(Raised(SubtreeConditions))
    else
      var returning :- ReturningChunks(p.returning);
      Ok(DeclareChunks(p.tempTable, DeclareLines(p.pks)) + ["DELETE FROM " + TargetSql(p.entity.value)]
         + OutputChunks(p.tempTable, p.pks) + WhereChunks(Filter(p.where)) + returning)
  }

  function DeleteSql(p: DeletePlan): Result<string>
  {
    var lines :- DeleteLines(p);
    Ok(Join(lines, "\n"))
  }

  // ---------------------------------------------------------------- the renderer

  method DeclareSection(pks: seq<Column>) returns (lines: seq<string>)
    ensures lines == DeclareLines(pks)
  {
    lines := [];
    for i := 0 to |pks|
      invariant lines == DeclareLines(pks[..i])
    {
      assert pks[..i + 1][..i] == pks[..i];
      lines := lines + [DeclareLine(pks[i].info.name, pks[i])];
    }
    assert pks[..|pks|] == pks;
  }

  method OutputColumnsSql(pks: seq<Column>) returns (s: string)
    ensures s == Join(InsertedColumns(pks), ",")
  {
    var columns: seq<string> := [];
    for i := 0 to |pks|
      invariant columns == InsertedColumns(pks[..i])
    {
      assert pks[..i + 1][..i] == pks[..i];
      columns := columns + [InsertedColumn(pks[i])];
    }
    assert pks[..|pks|] == pks;
    s := Join(columns, ",");
  }

  /** The read-back statement, rendered by the find renderer. */
  method ReturningSection(returning: Option<FindPlan>) returns (r: Result<seq<string>>)
    ensures r == ReturningChunks(returning)
  {
    if returning.None? {
      return Ok([]);
    }
    var s := RenderPlan(returning.value);
    if s.Err? {
      return Err(s.error);
    }
    return Ok(["", s.value]);
  }

  class DeleteContextQueryBuilder {
    var params: Fields
    var entity: Option<Entity>
    var pks: seq<Column>
    var returning: Option<FindPlan>
    var tempTable: Option<string>
    var where: seq<Condition>

    constructor ()
      ensures Plan() == EmptyDelete
    {
      pks := [];
      where := [];
      returning := None;
      tempTable := None;
      params := [];
      entity := None;
    }

    function Plan(): DeletePlan
      reads this
    {
      DeletePlan(params, entity, pks, returning, tempTable, where)
    }

    /** The filters the where builder leaves behind. */
    method SetFilters(params: Fields, where: seq<Condition>)
      modifies this
      ensures Plan() == old(Plan()).(params := params, where := where)
    {
      this.params := params;
      this.where := where;
    }

    /** `toSql` */
    method ToSql() returns (r: Result<string>)
      ensures r == DeleteSql(Plan())
    {
      var chunks: seq<string> := [];
      if Present(tempTable) {
        var lines := DeclareSection(pks);
        var declare := ["DECLARE " + tempTable.value + " AS TABLE("] + lines + [")", ""];
        assert [] + declare == declare;
        chunks := chunks + declare;
      }
      assert chunks == DeclareChunks(tempTable, DeclareLines(pks));
      if entity.None? {
        return Err(UndefinedEntity);
      }
      var target := TargetSql(entity.value);
      chunks := chunks + ["DELETE FROM " + target];
      if Present(tempTable) {
        var outputColumns := OutputColumnsSql(pks);
        chunks := chunks + ["OUTPUT " + outputColumns + " INTO " + tempTable.value];
      }
      assert chunks == DeclareChunks(tempTable, DeclareLines(pks)) + ["DELETE FROM " + target]
        + OutputChunks(tempTable, pks);
      assert Filter(where).where == where;
      var whereChunks := WhereBlock(Filter(where));
      if whereChunks.Err? {
        return Err(whereChunks.error);
      }
      chunks := chunks + whereChunks.value;
      var tail := ReturningSection(returning);
      if tail.Err? {
        return Err(tail.error);
      }
      chunks := chunks + tail.value;
      return Ok(Join(chunks, "\n"));
    }
  }
}
