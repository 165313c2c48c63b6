/** The plan node of a read query (`FindContextQueryBuilder`) and its rendering into
    T-SQL: a SELECT with optional TOP, INTO staging table, joins, WHERE, ORDER BY with
    OFFSET/FETCH, a re-select from the staging table, and one nested statement per
    child plan. */
module FindContext {
  import opened Js

  const NoProjection := "Required at least one column projection"
  const RequiredFrom := "Required from"
  const SubtreeConditions := "Not implemented subtree conditions"

  /** A projected column: `[source].[name] AS [alias]`, source and alias optional. */
  datatype ColumnRef = ColumnRef(source: Option<string>, name: string, alias: Option<string>)

  /** One side of a condition: a literal number or string, a column or a parameter. */
  datatype Side =
    | NumSide(n: int)
    | StrSide(s: string)
    | ColumnSide(source: Option<string>, column: string)
    | VarSide(name: string)

  /** The right-hand side of a condition: one side, or the list an `in` compares with. */
  datatype Operand = Single(side: Side) | List(sides: seq<Side>)

  datatype Cond = Cond(left: Side, operator: string, right: Operand)

  /** A WHERE entry: a leaf condition, or an AND/OR subtree that no renderer supports. */
  datatype Condition = Leaf(cond: Cond) | Tree(ands: seq<Condition>, ors: seq<Condition>)

  /** What a FROM or a JOIN reads: a table, a temporal (staging) table, or the
      `{type: 'object', name}` accessor that the one-to-many builder produces. */
  datatype Accessor =
    | TableAccess(database: Option<string>, schema: Option<string>, table: string, alias: Option<string>)
    | TemporalAccess(objectName: string, alias: Option<string>)
    | ObjectAccess(name: string, alias: Option<string>)

  datatype JoinType = LeftJoin | InnerJoin

  datatype TableJoin = TableJoin(joinType: JoinType, from: Accessor, conditions: seq<Cond>)

  datatype Direction = Asc | Desc

  datatype Order = Order(source: string, name: string, direction: Direction)

  /** The state of a find context. `from` is null until a builder sets it; `skip` and
      `take` hold whatever the caller passed, `undefined` when absent. */
  datatype FindPlan = FindPlan(
    params: Fields,
    columns: seq<ColumnRef>,
    temporalColumns: seq<ColumnRef>,
    from: Option<Accessor>,
    joins: seq<TableJoin>,
    into: Option<string>,
    where: seq<Condition>,
    orderBy: seq<Order>,
    skip: Value,
    take: Value,
    children: seq<FindPlan>)

  /** The state a fresh context starts in. */
  const EmptyPlan := FindPlan([], [], [], None, [], None, [], [], Undefined, Undefined, [])

  // ---------------------------------------------------------------- renderers

  function Bracket(s: string): string
  {
    "[" + s + "]"
  }

  function SourcePrefix(source: Option<string>): string
  {
    if Present(source) then Bracket(source.value) + "." else ""
  }

  function ColumnSql(c: ColumnRef): string
  {
    SourcePrefix(c.source) + Bracket(c.name) + (if Present(c.alias) then " AS " + Bracket(c.alias.value) else "")
  }

  function SideSql(s: Side): string
  {
    match s
    case NumSide(n) => IntToString(n)
    case StrSide(t) => ReplaceFirst(t, '\'', "''")
    case ColumnSide(source, column) => SourcePrefix(source) + Bracket(column)
    case VarSide(name) => "@" + name
  }

  function SideList(sides: seq<Side>): seq<string>
  {
    if sides == [] then [] else SideList(sides[..|sides| - 1]) + [SideSql(sides[|sides| - 1])]
  }

  /** `toSqlCondition` of the find, aggregate and delete contexts: both sides go
      through the side renderer, which has no case for a list, so the list of an `in`
      condition prints as `undefined`. */
  function CondSql(c: Cond): string
  {
    SideSql(c.left) + " " + c.operator + " " + (if c.right.Single? then SideSql(c.right.side) else "undefined")
  }

  /** The condition renderer as evidently intended: a list prints as `(a,b,...)`, the
      form the where builder's renderer (used by the update context) writes and the
      expected SQL of the `in` filter spells out. */
  function CondSqlIntended(c: Cond): string
  {
    SideSql(c.left) + " " + c.operator + " "
      + (match c.right
         case Single(side) => SideSql(side)
         case List(sides) => "(" + Join(SideList(sides), ",") + ")")
  }

  /** The accessor renderer for FROM and for table joins. A non-table accessor has no
      `table`, `database` or `schema` property, so it prints as `[undefined]`. */
  function TableAccessorSql(a: Accessor): string
  {
    var table := if a.TableAccess? then a.table else "undefined";
    (if a.TableAccess? && Present(a.database) then Bracket(a.database.value) + "." else "")
      + (if a.TableAccess? && Present(a.schema) then Bracket(a.schema.value) + "." else "")
      + Bracket(table)
      + (if a.alias.Some? then " AS " + Bracket(a.alias.value) + " WITH(NOLOCK)" else "")
  }

  /** The accessor renderer for non-table joins: the bare object name and an alias,
      with no lock hint. An accessor without an `object` property prints `undefined`. */
  function TemporalAccessorSql(a: Accessor): string
  {
    (if a.TemporalAccess? then a.objectName else "undefined")
      + (if a.alias.Some? then " AS " + Bracket(a.alias.value) else "")
  }

  function JoinHeader(j: TableJoin): string
  {
    (if j.joinType == LeftJoin then "LEFT" else "INNER") + " JOIN "
      + (if j.from.TableAccess? then TableAccessorSql(j.from) else TemporalAccessorSql(j.from))
      + " ON"
  }

  function OrderItemSql(o: Order): string
  {
    (if o.source != "" then Bracket(o.source) + "." else "") + Bracket(o.name)
      + " " + (if o.direction == Asc then "ASC" else "DESC")
  }

  function OrderItems(orderBy: seq<Order>): (r: seq<string>)
    ensures |r| == |orderBy|
    ensures forall i :: 0 <= i < |orderBy| ==> r[i] == OrderItemSql(orderBy[i])
  {
    if orderBy == [] then [] else OrderItems(orderBy[..|orderBy| - 1]) + [OrderItemSql(orderBy[|orderBy| - 1])]
  }

  // ---------------------------------------------------------------- statement sections

  function ColumnLines(cols: seq<ColumnRef>): (r: seq<string>)
    ensures |r| == |cols|
    ensures forall i :: 0 <= i < |cols| ==> r[i] == "\t" + ColumnSql(cols[i])
  {
    if cols == [] then [] else ColumnLines(cols[..|cols| - 1]) + ["\t" + ColumnSql(cols[|cols| - 1])]
  }

  function CondLines(conds: seq<Cond>): (r: seq<string>)
    ensures |r| == |conds|
    ensures forall i :: 0 <= i < |conds| ==> r[i] == "\t" + CondSql(conds[i])
  {
    if conds == [] then []
    else
      var n := |conds| - 1;
      assert forall i :: 0 <= i < n ==> conds[..n][i] == conds[i];
      CondLines(conds[..n]) + ["\t" + CondSql(conds[n])]
  }

  function JoinChunks(joins: seq<TableJoin>): seq<string>
  {
    if joins == [] then []
    else
      var j := joins[|joins| - 1];
      JoinChunks(joins[..|joins| - 1]) + [JoinHeader(j)] + CondLines(j.conditions)
  }

  predicate HasSubtree(where: seq<Condition>)
  {
    exists k :: 0 <= k < |where| && where[k].Tree?
  }

  function WhereLines(where: seq<Condition>): seq<string>
  {
    if where == [] then []
    else
      var c := where[|where| - 1];
      WhereLines(where[..|where| - 1]) + (if c.Leaf? then ["\t" + CondSql(c.cond)] else [])
  }

  function ReselectLines(cols: seq<ColumnRef>): (r: seq<string>)
    ensures |r| == |cols|
    ensures forall i :: 0 <= i < |cols| ==>
      r[i] == "\t" + Bracket(if cols[i].alias.Some? then cols[i].alias.value else "undefined")
  {
    if cols == [] then []
    else
      var c := cols[|cols| - 1];
      ReselectLines(cols[..|cols| - 1]) + ["\t" + Bracket(if c.alias.Some? then c.alias.value else "undefined")]
  }

  function ChildChunks(sqls: seq<string>): (r: seq<string>)
    ensures |r| == 2 * |sqls|
    ensures forall k :: 0 <= k < |sqls| ==> r[2 * k] == "" && r[2 * k + 1] == sqls[k]
  {
    if sqls == [] then [] else ChildChunks(sqls[..|sqls| - 1]) + ["", sqls[|sqls| - 1]]
  }

  predicate HasTop(p: FindPlan)
  {
    p.skip.Undefined? && !p.take.Undefined?
  }

  function TopChunks(p: FindPlan): seq<string>
  {
    if HasTop(p) then ["\tTOP " + JsString(p.take)] else []
  }

  function IntoChunks(p: FindPlan): seq<string>
  {
    if Present(p.into) then ["INTO " + p.into.value] else []
  }

  function HeadChunks(p: FindPlan): seq<string>
    requires p.from.Some?
  {
    ["SELECT"] + TopChunks(p)
      + [Join(ColumnLines(p.columns) + ColumnLines(p.temporalColumns), ",\n")]
      + IntoChunks(p)
      + ["FROM " + TableAccessorSql(p.from.value)]
  }

  function WhereChunks(p: FindPlan): seq<string>
  {
    if |p.where| > 0 then ["WHERE"] + WhereLines(p.where) else []
  }

  function PagingChunks(p: FindPlan): seq<string>
  {
    if p.skip.Undefined? then []
    else if p.take.Undefined? then ["OFFSET " + JsString(p.skip) + " ROWS"]
    else ["OFFSET " + JsString(p.skip) + " ROWS", "FETCH NEXT " + JsString(p.take) + " ROWS ONLY"]
  }

  function OrderChunks(p: FindPlan): seq<string>
  {
    if |p.orderBy| == 0 then [] else ["ORDER BY " + Join(OrderItems(p.orderBy), ",")] + PagingChunks(p)
  }

  function ReselectChunks(p: FindPlan): seq<string>
  {
    if Present(p.into) then ["", "SELECT", Join(ReselectLines(p.columns), ",\n"), "FROM " + p.into.value] else []
  }

  /** The chunks after the conditions: ordering and paging, then the re-select. */
  function TailChunks(p: FindPlan): seq<string>
  {
    OrderChunks(p) + ReselectChunks(p)
  }

  /** Collects rendered children, failing with the first child that failed. */
  function CollectStep(acc: seq<string>, r: Result<string>): Result<seq<string>>
  {
    if r.Err? then Err(r.error) else Ok(acc + [r.value])
  }

  function ChildResults(p: FindPlan): seq<Result<string>>
    decreases p, 0
  {
    seq(|p.children|, i requires 0 <= i < |p.children| => FindSql(p.children[i]))
  }

  /** The chunks `toSql` joins with newlines, or the error it throws. */
  function FindLines(p: FindPlan): Result<seq<string>>
    decreases p, 1
  {
    if |p.columns| + |p.temporalColumns| == 0 then Err(Raised(NoProjection))
    else if p.from.None? then Err(Raised(RequiredFrom))
    else if HasSubtree(p.where) then Err(Raised(SubtreeConditions))
    else
      var childSql :- FoldResult(CollectStep, [], ChildResults(p));
      Ok(HeadChunks(p) + (JoinChunks(p.joins) + (WhereChunks(p) + (TailChunks(p) + ChildChunks(childSql)))))
  }

  function FindSql(p: FindPlan): Result<string>
    decreases p, 2
  {
    var lines :- FindLines(p);
    Ok(Join(lines, "\n"))
  }

  // ---------------------------------------------------------------- the renderer

  /** The column list chunk: projected columns then temporal columns, one tab-prefixed
      line each. */
  method ColumnListSql(p: FindPlan) returns (s: string)
    ensures s == Join(ColumnLines(p.columns) + ColumnLines(p.temporalColumns), ",\n")
  {
    var columns: seq<string> := [];
    for i := 0 to |p.columns|
      invariant columns == ColumnLines(p.columns[..i])
    {
      assert p.columns[..i + 1][..i] == p.columns[..i];
      columns := columns + ["\t" + ColumnSql(p.columns[i])];
    }
    assert p.columns[..|p.columns|] == p.columns;
    for i := 0 to |p.temporalColumns|
      invariant columns == ColumnLines(p.columns) + ColumnLines(p.temporalColumns[..i])
    {
      assert p.temporalColumns[..i + 1][..i] == p.temporalColumns[..i];
      columns := columns + ["\t" + ColumnSql(p.temporalColumns[i])];
    }
    assert p.temporalColumns[..|p.temporalColumns|] == p.temporalColumns;
    s := Join(columns, ",\n");
  }

  /** The condition lines under one join, one tab-prefixed line each. */
  method CondSection(conds: seq<Cond>) returns (lines: seq<string>)
    ensures lines == CondLines(conds)
  {
    lines := [];
    for j := 0 to |conds|
      invariant lines == CondLines(conds[..j])
    {
      assert conds[..j + 1][..j] == conds[..j];
      lines := lines + ["\t" + CondSql(conds[j])];
    }
    assert conds[..|conds|] == conds;
  }

  /** One `<TYPE> JOIN <accessor> ON` chunk per join, followed by its conditions. */
  method JoinSection(joins: seq<TableJoin>) returns (chunks: seq<string>)
    ensures chunks == JoinChunks(joins)
  {
    chunks := [];
    for i := 0 to |joins|
      invariant chunks == JoinChunks(joins[..i])
    {
      var lines := CondSection(joins[i].conditions);
      assert joins[..i + 1][..i] == joins[..i];
      chunks := chunks + [JoinHeader(joins[i])] + lines;
    }
    assert joins[..|joins|] == joins;
  }

  /** The WHERE lines, or the error a subtree condition raises: every condition is
      looked at before any line is rendered. */
  method WhereSection(where: seq<Condition>) returns (r: Result<seq<string>>)
    ensures HasSubtree(where) ==> r == Err(Raised(SubtreeConditions))
    ensures !HasSubtree(where) ==> r == Ok(WhereLines(where))
  {
    var i := 0;
    while i < |where|
      invariant i <= |where|
      invariant forall k :: 0 <= k < i ==> where[k].Leaf?
    {
      if where[i].Tree? {
        return Err(Raised(SubtreeConditions));
      }
      i := i + 1;
    }
    var lines := LeafSection(where);
    return Ok(lines);
  }

  /** The line of every leaf condition. */
  method LeafSection(where: seq<Condition>) returns (lines: seq<string>)
    ensures lines == WhereLines(where)
  {
    lines := [];
    for i := 0 to |where|
      invariant lines == WhereLines(where[..i])
    {
      assert where[..i + 1][..i] == where[..i];
      if where[i].Leaf? {
        lines := lines + ["\t" + CondSql(where[i].cond)];
      }
    }
    assert where[..|where|] == where;
  }

  /** The re-select list: the alias of every projected column. */
  method ReselectSql(cols: seq<ColumnRef>) returns (s: string)
    ensures s == Join(ReselectLines(cols), ",\n")
  {
    var reselect: seq<string> := [];
    for i := 0 to |cols|
      invariant reselect == ReselectLines(cols[..i])
    {
      assert cols[..i + 1][..i] == cols[..i];
      var c := cols[i];
      reselect := reselect + ["\t" + Bracket(if c.alias.Some? then c.alias.value else "undefined")];
    }
    assert cols[..|cols|] == cols;
    s := Join(reselect, ",\n");
  }

  /** The opening chunks: `SELECT`, the optional `TOP`, the column list, the optional
      `INTO` and the `FROM` accessor. */
  method HeadSection(p: FindPlan) returns (chunks: seq<string>)
    requires p.from.Some?
    ensures chunks == HeadChunks(p)
  {
    chunks := ["SELECT"];
    if p.skip.Undefined? && !p.take.Undefined? {
      chunks := chunks + ["\tTOP " + JsString(p.take)];
    }
    var columnList := ColumnListSql(p);
    chunks := chunks + [columnList];
    if Present(p.into) {
      chunks := chunks + ["INTO " + p.into.value];
    }
    chunks := chunks + ["FROM " + TableAccessorSql(p.from.value)];
  }

  /** The closing chunks: `ORDER BY` with its paging, then the re-select of a plan
      that selects into a temporary table. */
  method TailSection(p: FindPlan) returns (chunks: seq<string>)
    ensures chunks == TailChunks(p)
  {
    chunks := [];
    if |p.orderBy| > 0 {
      chunks := chunks + ["ORDER BY " + Join(OrderItems(p.orderBy), ",")];
      if !p.skip.Undefined? {
        chunks := chunks + ["OFFSET " + JsString(p.skip) + " ROWS"];
        if !p.take.Undefined? {
          chunks := chunks + ["FETCH NEXT " + JsString(p.take) + " ROWS ONLY"];
        }
      }
    }
    if Present(p.into) {
      var reselect := ReselectSql(p.columns);
      chunks := chunks + ["", "SELECT", reselect, "FROM " + p.into.value];
    }
  }

  /** Renders every child in order, stopping at the first one that throws. */
  method ChildrenSection(p: FindPlan) returns (r: Result<seq<string>>)
    ensures r == FoldResult(CollectStep, [], ChildResults(p))
    decreases p, 0
  {
    ghost var results := ChildResults(p);
    var childSql: seq<string> := [];
    for i := 0 to |p.children|
      invariant FoldResult(CollectStep, [], results[..i]) == Ok(childSql)
    {
      var c := RenderPlan(p.children[i]);
      FoldResultNext(CollectStep, [], results, i);
      if c.Err? {
        FoldResultErr(CollectStep, [], results, i + 1);
        return Err(c.error);
      }
      childSql := childSql + [c.value];
    }
    assert results[..|p.children|] == results;
    return Ok(childSql);
  }

  /** The `WHERE` block: nothing without conditions, otherwise the keyword and the
      condition lines, or the error a subtree condition raises. */
  method WhereBlock(p: FindPlan) returns (r: Result<seq<string>>)
    ensures HasSubtree(p.where) ==> r == Err(Raised(SubtreeConditions))
    ensures !HasSubtree(p.where) ==> r == Ok(WhereChunks(p))
  {
    if |p.where| == 0 {
      return Ok([]);
    }
    var lines :- WhereSection(p.where);
    return Ok(["WHERE"] + lines);
  }

  /** `toSql`: checks the plan, fills the chunk list section by section, renders each
      child recursively and joins the chunks with newlines. */
  method RenderPlan(p: FindPlan) returns (r: Result<string>)
    ensures r == FindSql(p)
    decreases p, 1
  {
    if |p.columns| + |p.temporalColumns| == 0 {
      return Err(Raised(NoProjection));
    }
    if p.from.None? {
      return Err(Raised(RequiredFrom));
    }
    var head := HeadSection(p);
    var joins := JoinSection(p.joins);
    var where := WhereBlock(p);
    if where.Err? {
      return Err(where.error);
    }
    var tail := TailSection(p);
    var children := ChildrenSection(p);
    if children.Err? {
      return Err(children.error);
    }
    var chunks := head + (joins + (where.value + (tail + ChildChunks(children.value))));
    return Ok(Join(chunks, "\n"));
  }

  /** The find context object: its fields are the plan the builders fill in. */
  class FindContextQueryBuilder {
    var params: Fields
    var columns: seq<ColumnRef>
    var temporalColumns: seq<ColumnRef>
    var from: Option<Accessor>
    var joins: seq<TableJoin>
    var into: Option<string>
    var where: seq<Condition>
    var orderBy: seq<Order>
    var skip: Value
    var take: Value
    var children: seq<FindPlan>

    constructor ()
      ensures Plan() == EmptyPlan
    {
      params := [];
      columns := [];
      temporalColumns := [];
      joins := [];
      from := None;
      children := [];
      into := None;
      where := [];
      orderBy := [];
      skip := Undefined;
      take := Undefined;
    }

    function Plan(): FindPlan
      reads this
    {
      FindPlan(params, columns, temporalColumns, from, joins, into, where, orderBy, skip, take, children)
    }

    method ToSql() returns (r: Result<string>)
      ensures r == FindSql(Plan())
    {
      r := RenderPlan(Plan());
    }
  }
}
