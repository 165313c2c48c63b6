/** The plan node of a read query of `context.query-builder.ts` and its rendering into T-SQL: a SELECT with an optional
    INTO staging table, table joins and a WHERE, a re-select from the staging table, and
    one nested statement per child plan. It has no TOP, ORDER BY or paging. Columns and
    condition sides are written the same way as in `find.context.ts`, whose
    datatypes and renderers are reused. */
module ContextQuery {
  import opened Js
  import FC = FindContext

  const NoProjection := "Required at least one column projection"
  const RequiredFrom := "Required from"
  const SubtreeConditions := "Not implemented subtree conditions"

  /** `ITableAccessor`: every FROM and JOIN of `context.query-builder.ts` reads a table. */
  datatype TableAccessor = TableAccessor(database: Option<string>, schema: Option<string>, table: string, alias: Option<string>)

  /** A condition compares two sides; `context.query-builder.ts` has no `in` list. */
  datatype Cond = Cond(left: FC.Side, operator: string, right: FC.Side)

  /** A WHERE entry: a leaf condition, or an AND/OR subtree that the renderer refuses. */
  datatype Condition = Leaf(cond: Cond) | Tree(ands: seq<Condition>, ors: seq<Condition>)

  datatype TableJoin = TableJoin(joinType: FC.JoinType, from: TableAccessor, conditions: seq<Cond>)

  /** The state of a context. `from` and `into` are null until a builder sets them. */
  datatype QueryPlan = QueryPlan(
    params: Fields,
    columns: seq<FC.ColumnRef>,
    temporalColumns: seq<FC.ColumnRef>,
    from: Option<TableAccessor>,
    joins: seq<TableJoin>,
    into: Option<string>,
    where: seq<Condition>,
    children: seq<QueryPlan>)

  /** The state a fresh context starts in. */
  const EmptyPlan := QueryPlan([], [], [], None, [], None, [], [])

  // ---------------------------------------------------------------- renderers

  /** `toSqlTableAccessor`: database and schema prefixes when non-empty, the bracketed
      table, and the alias with the lock hint only when the alias is non-empty. */
  function AccessorSql(t: TableAccessor): string
  {
    (if Present(t.database) then FC.Bracket(t.database.value) + "." else "")
      + (if Present(t.schema) then FC.Bracket(t.schema.value) + "." else "")
      + FC.Bracket(t.table)
      + (if Present(t.alias) then " AS " + FC.Bracket(t.alias.value) + " WITH(NOLOCK)" else "")
  }

  /** `toSqlCondition`: both sides through the side renderer, around the operator. */
  function CondSql(c: Cond): string
  {
    FC.SideSql(c.left) + " " + c.operator + " " + FC.SideSql(c.right)
  }

  function JoinHeader(j: TableJoin): string
  {
    (if j.joinType == FC.LeftJoin then "LEFT" else "INNER") + " JOIN " + AccessorSql(j.from) + " ON"
  }

  // ---------------------------------------------------------------- statement sections

  function CondLines(conds: seq<Cond>): (r: seq<string>)
    ensures |r| == |conds|
    ensures forall i :: 0 <= i < |conds| ==> r[i] == "\t" + CondSql(conds[i])
  {
    seq(|conds|, i requires 0 <= i < |conds| => "\t" + CondSql(conds[i]))
  }

  function JoinChunks(joins: seq<TableJoin>): seq<string>
  {
    if joins == [] then []
    else
      var j := joins[|joins| - 1];
      JoinChunks(joins[..|joins| - 1]) + [JoinHeader(j)] + CondLines(j.conditions)
  }

  predicate HasSubtree(where: seq<Condition>)
  {
    exists k :: 0 <= k < |where| && where[k].Tree?
  }

  function WhereLines(where: seq<Condition>): seq<string>
  {
    if where == [] then []
    else
      var c := where[|where| - 1];
      WhereLines(where[..|where| - 1]) + (if c.Leaf? then ["\t" + CondSql(c.cond)] else [])
  }

  function ColumnList(p: QueryPlan): string
  {
    Join(FC.ColumnLines(p.columns) + FC.ColumnLines(p.temporalColumns), ",\n")
  }

  function IntoChunks(p: QueryPlan): seq<string>
  {
    if Present(p.into) then ["INTO " + p.into.value] else []
  }

  /** `SELECT`, the column list, the optional `INTO` and the `FROM` accessor. */
  function HeadChunks(p: QueryPlan): seq<string>
    requires p.from.Some?
  {
    ["SELECT", ColumnList(p)] + IntoChunks(p) + ["FROM " + AccessorSql(p.from.value)]
  }

  function WhereChunks(p: QueryPlan): seq<string>
  {
    if |p.where| > 0 then ["WHERE"] + WhereLines(p.where) else []
  }

  function ReselectChunks(p: QueryPlan): seq<string>
  {
    if Present(p.into) then ["", "SELECT", Join(FC.ReselectLines(p.columns), ",\n"), "FROM " + p.into.value] else []
  }

  function ChildResults(p: QueryPlan): seq<Result<string>>
    decreases p, 0
  {
    seq(|p.children|, i requires 0 <= i < |p.children| => QuerySql(p.children[i]))
  }

  /** The chunks `toSql` joins with newlines, or the error it throws. */
  function QueryLines(p: QueryPlan): Result<seq<string>>
    decreases p, 1
  {
    if |p.columns| + |p.temporalColumns| == 0 then Err(Raised(NoProjection))
    else if p.from.None? then Err(Raised(RequiredFrom))
    else if HasSubtree(p.where) then Err(Raised(SubtreeConditions))
    else
      var childSql :- FoldResult(FC.CollectStep, [], ChildResults(p));
      Ok(HeadChunks(p) + JoinChunks(p.joins) + WhereChunks(p) + ReselectChunks(p) + FC.ChildChunks(childSql))
  }

  function QuerySql(p: QueryPlan): Result<string>
    decreases p, 2
  {
    var lines :- QueryLines(p);
    Ok(Join(lines, "\n"))
  }

  // ---------------------------------------------------------------- the renderer

  /** The column list chunk: projected columns then temporal columns. */
  method ColumnListSql(p: QueryPlan) returns (s: string)
    ensures s == ColumnList(p)
  {
    var columns: seq<string> := [];
    for i := 0 to |p.columns|
      invariant columns == FC.ColumnLines(p.columns[..i])
    {
      assert p.columns[..i + 1][..i] == p.columns[..i];
      columns := columns + ["\t" + FC.ColumnSql(p.columns[i])];
    }
    assert p.columns[..|p.columns|] == p.columns;
    for i := 0 to |p.temporalColumns|
      invariant columns == FC.ColumnLines(p.columns) + FC.ColumnLines(p.temporalColumns[..i])
    {
      assert p.temporalColumns[..i + 1][..i] == p.temporalColumns[..i];
      columns := columns + ["\t" + FC.ColumnSql(p.temporalColumns[i])];
    }
    assert p.temporalColumns[..|p.temporalColumns|] == p.temporalColumns;
    s := Join(columns, ",\n");
  }

  /** One `<TYPE> JOIN <accessor> ON` chunk per join, followed by its conditions. */
  method JoinSection(joins: seq<TableJoin>) returns (chunks: seq<string>)
    ensures chunks == JoinChunks(joins)
  {
    chunks := [];
    for i := 0 to |joins|
      invariant chunks == JoinChunks(joins[..i])
    {
      assert joins[..i + 1][..i] == joins[..i];
      var lines := CondSection(joins[i].conditions);
      chunks := chunks + [JoinHeader(joins[i])] + lines;
    }
    assert joins[..|joins|] == joins;
  }

  /** The condition lines under one join, one tab-prefixed line each. */
  method CondSection(conds: seq<Cond>) returns (lines: seq<string>)
    ensures lines == CondLines(conds)
  {
    lines := [];
    for j := 0 to |conds|
      invariant lines == CondLines(conds[..j])
    {
      assert CondLines(conds[..j + 1]) == CondLines(conds[..j]) + ["\t" + CondSql(conds[j])];
      lines := lines + ["\t" + CondSql(conds[j])];
    }
    assert conds[..|conds|] == conds;
  }

  /** The WHERE block: nothing without conditions, else the keyword and one line per
      leaf; a subtree condition throws (before any line is used, so the rendering
      loop below runs only over leaves). */
  method WhereBlock(p: QueryPlan) returns (r: Result<seq<string>>)
    ensures HasSubtree(p.where) ==> r == Err(Raised(SubtreeConditions))
    ensures !HasSubtree(p.where) ==> r == Ok(WhereChunks(p))
  {
    if |p.where| == 0 {
      return Ok([]);
    }
    var i := 0;
    while i < |p.where|
      invariant i <= |p.where|
      invariant forall k :: 0 <= k < i ==> p.where[k].Leaf?
    {
      if p.where[i].Tree? {
        return Err(Raised(SubtreeConditions));
      }
      i := i + 1;
    }
    var lines := LeafLines(p.where);
    return Ok(["WHERE"] + lines);
  }

  /** The line of every leaf condition. */
  method LeafLines(where: seq<Condition>) returns (lines: seq<string>)
    ensures lines == WhereLines(where)
  {
    lines := [];
    for i := 0 to |where|
      invariant lines == WhereLines(where[..i])
    {
      assert where[..i + 1][..i] == where[..i];
      if where[i].Leaf? {
        lines := lines + ["\t" + CondSql(where[i].cond)];
      }
    }
    assert where[..|where|] == where;
  }

  /** The re-select of a plan that selects into a staging table: the alias of every
      projected column, read back from that table. */
  method ReselectSection(p: QueryPlan) returns (chunks: seq<string>)
    ensures chunks == ReselectChunks(p)
  {
    if !Present(p.into) {
      return [];
    }
    var cols := p.columns;
    var reselect: seq<string> := [];
    for i := 0 to |cols|
      invariant reselect == FC.ReselectLines(cols[..i])
    {
      assert cols[..i + 1][..i] == cols[..i];
      var c := cols[i];
      reselect := reselect + ["\t" + FC.Bracket(if c.alias.Some? then c.alias.value else "undefined")];
    }
    assert cols[..|cols|] == cols;
    chunks := ["", "SELECT", Join(reselect, ",\n"), "FROM " + p.into.value];
  }

  /** Renders every child in order, stopping at the first one that throws. */
  method ChildrenSection(p: QueryPlan) returns (r: Result<seq<string>>)
    ensures r == FoldResult(FC.CollectStep, [], ChildResults(p))
    decreases p, 0
  {
    ghost var results := ChildResults(p);
    var childSql: seq<string> := [];
    for i := 0 to |p.children|
      invariant FoldResult(FC.CollectStep, [], results[..i]) == Ok(childSql)
    {
      var c := RenderPlan(p.children[i]);
      FoldResultNext(FC.CollectStep, [], results, i);
      if c.Err? {
        FoldResultErr(FC.CollectStep, [], results, i + 1);
        return Err(c.error);
      }
      childSql := childSql + [c.value];
    }
    assert results[..|p.children|] == results;
    return Ok(childSql);
  }

  /** `toSql`: checks the plan, fills the chunk list section by section, renders each
      child recursively and joins the chunks with newlines. */
  method RenderPlan(p: QueryPlan) returns (r: Result<string>)
    ensures r == QuerySql(p)
    decreases p, 1
  {
    if |p.columns| + |p.temporalColumns| == 0 {
      return Err(Raised(NoProjection));
    }
    if p.from.None? {
      return Err(Raised(RequiredFrom));
    }
    var columnList := ColumnListSql(p);
    var head := ["SELECT", columnList];
    if Present(p.into) {
      head := head + ["INTO " + p.into.value];
    }
    head := head + ["FROM " + AccessorSql(p.from.value)];
    assert head == HeadChunks(p);
    var joins := JoinSection(p.joins);
    var where := WhereBlock(p);
    if where.Err? {
      return Err(where.error);
    }
    var reselect := ReselectSection(p);
    var children := ChildrenSection(p);
    if children.Err? {
      return Err(children.error);
    }
    var chunks := head + joins + where.value + reselect + FC.ChildChunks(children.value);
    return Ok(Join(chunks, "\n"));
  }

  /** The context object of `context.query-builder.ts`: its fields are the plan the builder fills in. */
  class FindContextQueryBuilder {
    var params: Fields
    var columns: seq<FC.ColumnRef>
    var temporalColumns: seq<FC.ColumnRef>
    var from: Option<TableAccessor>
    var joins: seq<TableJoin>
    var into: Option<string>
    var where: seq<Condition>
    var children: seq<QueryPlan>

    constructor ()
      ensures Plan() == EmptyPlan
    {
      params := [];
      columns := [];
      temporalColumns := [];
      joins := [];
      from := None;
      children := [];
      into := None;
      where := [];
    }

    function Plan(): QueryPlan
      reads this
    {
      QueryPlan(params, columns, temporalColumns, from, joins, into, where, children)
    }

    method ToSql() returns (r: Result<string>)
      ensures r == QuerySql(Plan())
    {
      r := RenderPlan(Plan());
    }
  }
}
