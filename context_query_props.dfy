/** What the renderer of `context.query-builder.ts` promises about the statement it produces:
    when it throws, the order of the clauses, the absence of TOP and paging, the
    re-select from the staging table, how children are appended, and the shape of
    table accessors. */
module ContextQueryProps {
  import opened Js
  import FC = FindContext
  import FCP = FindContextProps
  import opened ContextQuery

  /** The chunks of a plan that renders. */
  function Lines(p: QueryPlan): seq<string>
    requires QueryLines(p).Ok?
  {
    QueryLines(p).value
  }

  /** The rendered children of a plan that renders. */
  function ChildTexts(p: QueryPlan): seq<string>
    requires QueryLines(p).Ok?
  {
    FoldResult(FC.CollectStep, [], ChildResults(p)).value
  }

  /** The chunks of a plan that renders, section by section. */
  lemma LinesParts(p: QueryPlan)
    requires QueryLines(p).Ok?
    ensures |p.columns| + |p.temporalColumns| > 0 && p.from.Some? && !HasSubtree(p.where)
    ensures Lines(p) == HeadChunks(p) + JoinChunks(p.joins) + WhereChunks(p) + ReselectChunks(p) + FC.ChildChunks(ChildTexts(p))
  {
  }

  // ---------------------------------------------------------------- errors

  /** A plan renders when it projects a column, has a FROM, has no subtree condition,
      and every child renders. */
  predicate Renderable(p: QueryPlan)
    decreases p
  {
    |p.columns| + |p.temporalColumns| > 0 && p.from.Some? && !HasSubtree(p.where)
    && forall k :: 0 <= k < |p.children| ==> Renderable(p.children[k])
  }

  /** The errors `toSql` throws, in the order it checks them. */
  lemma QuerySqlErrors(p: QueryPlan)
    ensures |p.columns| + |p.temporalColumns| == 0 ==> QuerySql(p) == Err(Raised(NoProjection))
    ensures |p.columns| + |p.temporalColumns| > 0 && p.from.None? ==> QuerySql(p) == Err(Raised(RequiredFrom))
    ensures |p.columns| + |p.temporalColumns| > 0 && p.from.Some? && HasSubtree(p.where) ==>
      QuerySql(p) == Err(Raised(SubtreeConditions))
    ensures QuerySql(p).Ok? ==> QueryLines(p).Ok? && QuerySql(p).value == Join(Lines(p), "\n")
  {
  }

  /** A plan renders exactly when it and all its descendants are renderable. */
  lemma {:induction false} RenderableIff(p: QueryPlan)
    ensures QuerySql(p).Ok? <==> Renderable(p)
    decreases p
  {
    forall k | 0 <= k < |p.children| {
      RenderableIff(p.children[k]);
    }
    var rs := ChildResults(p);
    FCP.CollectAll(rs);
    assert forall k :: 0 <= k < |p.children| ==> rs[k] == QuerySql(p.children[k]);
  }

  // ---------------------------------------------------------------- the head of the statement

  /** Every rendered statement starts with `SELECT`. */
  lemma StartsWithSelect(p: QueryPlan)
    requires QuerySql(p).Ok?
    ensures StartsWith(QuerySql(p).value, "SELECT")
  {
    FCP.StartsWithSelf("SELECT", "");
    JoinHead(Lines(p), "\n", "SELECT");
  }

  /** The column list starts with a tab and a bracket: projected columns come first,
      temporal columns after them. */
  lemma ColumnListHead(p: QueryPlan)
    requires |p.columns| + |p.temporalColumns| > 0
    ensures StartsWith(ColumnList(p), "\t[")
  {
    var cols := FC.ColumnLines(p.columns) + FC.ColumnLines(p.temporalColumns);
    if |p.columns| > 0 {
      FCP.ColumnLineHead(p.columns[0]);
    } else {
      FCP.ColumnLineHead(p.temporalColumns[0]);
    }
    JoinHead(cols, ",\n", "\t[");
  }

  /** The statement opens with `SELECT` and the column list, with no `TOP` between them;
      `INTO <into>` follows exactly when `into` is set, then the FROM accessor. */
  lemma HeadClauses(p: QueryPlan)
    requires QueryLines(p).Ok?
    ensures |Lines(p)| >= 3 + |IntoChunks(p)|
    ensures Lines(p)[0] == "SELECT" && Lines(p)[1] == ColumnList(p)
    ensures StartsWith(Lines(p)[1], "\t[") && !StartsWith(Lines(p)[1], "\tTOP ")
    ensures Present(p.into) <==> StartsWith(Lines(p)[2], "INTO ")
    ensures Present(p.into) ==> Lines(p)[2] == "INTO " + p.into.value
                                && Lines(p)[3] == "FROM " + AccessorSql(p.from.value)
    ensures !Present(p.into) ==> Lines(p)[2] == "FROM " + AccessorSql(p.from.value)
  {
    LinesParts(p);
    ColumnListHead(p);
    FCP.NotTop(ColumnList(p));
    var head := HeadChunks(p);
    if Present(p.into) {
      FCP.StartsWithSelf("INTO ", p.into.value);
    } else {
      var l := head[2];
      assert l == "FROM " + AccessorSql(p.from.value);
      if StartsWith(l, "INTO ") {
        FCP.FirstTwo(l, "INTO ");
      }
    }
  }

  // ---------------------------------------------------------------- joins and conditions

  /** The join section: each join's header, then one tab-prefixed line per condition,
      join after join. */
  lemma {:induction false} JoinSectionShape(joins: seq<TableJoin>, k: nat)
    requires k < |joins|
    ensures var before := JoinChunks(joins[..k]); var j := joins[k];
      |JoinChunks(joins)| >= |before| + 1 + |j.conditions|
      && JoinChunks(joins)[|before|] == JoinHeader(j)
      && forall c :: 0 <= c < |j.conditions| ==>
           JoinChunks(joins)[|before| + 1 + c] == "\t" + CondSql(j.conditions[c])
    decreases |joins|
  {
    var n := |joins| - 1;
    var prefix := joins[..n];
    assert JoinChunks(joins) == JoinChunks(prefix) + [JoinHeader(joins[n])] + CondLines(joins[n].conditions);
    if k < n {
      JoinSectionShape(prefix, k);
      assert prefix[..k] == joins[..k] && prefix[k] == joins[k];
    } else {
      assert joins[..k] == prefix;
    }
  }

  /** The WHERE section is absent without conditions; otherwise it is the keyword and
      one line per condition, in order. */
  lemma WhereLinesAll(where: seq<Condition>)
    requires !HasSubtree(where)
    ensures |WhereLines(where)| == |where|
    ensures forall i :: 0 <= i < |where| ==> where[i].Leaf? && WhereLines(where)[i] == "\t" + CondSql(where[i].cond)
  {
    forall k | 0 <= k < |where|
      ensures where[k].Leaf?
    {
      assert !(0 <= k < |where| && where[k].Tree?);
    }
    LeafLines(where);
  }

  /** A list of leaf conditions renders one tab-prefixed line per condition. */
  lemma {:induction false} LeafLines(where: seq<Condition>)
    requires forall k :: 0 <= k < |where| ==> where[k].Leaf?
    ensures |WhereLines(where)| == |where|
    ensures forall i :: 0 <= i < |where| ==> where[i].Leaf? && WhereLines(where)[i] == "\t" + CondSql(where[i].cond)
    decreases |where|
  {
    if where != [] {
      var n := |where| - 1;
      assert forall k :: 0 <= k < n ==> where[..n][k] == where[k];
      LeafLines(where[..n]);
      LeafLinesStep(where);
    }
  }

  /** One more leaf condition adds its line after those of the conditions before it. */
  lemma LeafLinesStep(where: seq<Condition>)
    requires |where| > 0 && forall k :: 0 <= k < |where| ==> where[k].Leaf?
    requires var prefix := where[..|where| - 1];
      |WhereLines(prefix)| == |prefix|
      && forall i :: 0 <= i < |prefix| ==> prefix[i].Leaf? && WhereLines(prefix)[i] == "\t" + CondSql(prefix[i].cond)
    ensures |WhereLines(where)| == |where|
    ensures forall i :: 0 <= i < |where| ==> where[i].Leaf? && WhereLines(where)[i] == "\t" + CondSql(where[i].cond)
  {
    var n := |where| - 1;
    var prefix, prev := where[..n], WhereLines(where[..n]);
    var last := "\t" + CondSql(where[n].cond);
    assert WhereLines(where) == prev + [last];
    assert WhereLines(where)[n] == last;
    forall i | 0 <= i < n
      ensures WhereLines(where)[i] == "\t" + CondSql(where[i].cond)
    {
      assert prefix[i] == where[i];
      assert WhereLines(where)[i] == prev[i];
    }
  }

  // ---------------------------------------------------------------- no TOP, ORDER BY or paging

  lemma HeadNeutral(p: QueryPlan)
    requires p.from.Some? && |p.columns| + |p.temporalColumns| > 0
    ensures FCP.AllNeutral(HeadChunks(p))
  {
    ColumnListHead(p);
    FCP.FirstTwo(ColumnList(p), "\t[");
    FCP.StartsWithSelf("FROM ", AccessorSql(p.from.value));
    FCP.FirstTwo("FROM " + AccessorSql(p.from.value), "FROM ");
  }

  lemma {:induction false} JoinNeutral(joins: seq<TableJoin>)
    ensures FCP.AllNeutral(JoinChunks(joins))
    decreases |joins|
  {
    if joins != [] {
      var j := joins[|joins| - 1];
      JoinNeutral(joins[..|joins| - 1]);
      assert FCP.Neutral(JoinHeader(j));
      FCP.NeutralConcat(JoinChunks(joins[..|joins| - 1]), [JoinHeader(j)]);
      FCP.NeutralConcat(JoinChunks(joins[..|joins| - 1]) + [JoinHeader(j)], CondLines(j.conditions));
    }
  }

  lemma {:induction false} WhereNeutral(where: seq<Condition>)
    ensures FCP.AllNeutral(WhereLines(where))
    decreases |where|
  {
    if where != [] {
      var c := where[|where| - 1];
      WhereNeutral(where[..|where| - 1]);
      FCP.NeutralConcat(WhereLines(where[..|where| - 1]), if c.Leaf? then ["\t" + CondSql(c.cond)] else []);
    }
  }

  lemma ReselectNeutral(p: QueryPlan)
    ensures FCP.AllNeutral(ReselectChunks(p))
  {
    if Present(p.into) {
      var lines := FC.ReselectLines(p.columns);
      if |lines| > 0 {
        FCP.StartsWithSelf("\t", lines[0][1..]);
        assert lines[0] == "\t" + lines[0][1..];
        JoinHead(lines, ",\n", "\t");
        assert Join(lines, ",\n")[..1][0] == Join(lines, ",\n")[0];
      }
      FCP.StartsWithSelf("FROM ", p.into.value);
      FCP.FirstTwo("FROM " + p.into.value, "FROM ");
    }
  }

  /** Every chunk of a rendered statement is a SELECT, column, INTO, FROM, JOIN,
      condition, WHERE, blank or child line. */
  lemma AllLinesNeutral(p: QueryPlan)
    requires QueryLines(p).Ok?
    ensures FCP.AllNeutral(Lines(p))
  {
    LinesParts(p);
    HeadNeutral(p);
    JoinNeutral(p.joins);
    WhereNeutral(p.where);
    assert FCP.AllNeutral(WhereChunks(p)) by {
      FCP.NeutralConcat(["WHERE"], WhereLines(p.where));
    }
    ReselectNeutral(p);
    ChildrenNeutral(p);
    var h, j, w := HeadChunks(p), JoinChunks(p.joins), WhereChunks(p);
    FCP.NeutralConcat(h, j);
    FCP.NeutralConcat(h + j, w);
    FCP.NeutralConcat(h + j + w, ReselectChunks(p));
    FCP.NeutralConcat(h + j + w + ReselectChunks(p), FC.ChildChunks(ChildTexts(p)));
  }

  /** Every child statement starts with `SELECT`, so the child section is neutral. */
  lemma ChildrenNeutral(p: QueryPlan)
    requires QueryLines(p).Ok?
    ensures FCP.AllNeutral(FC.ChildChunks(ChildTexts(p)))
  {
    ChildTextsAre(p);
    forall k | 0 <= k < |ChildTexts(p)|
      ensures StartsWith(ChildTexts(p)[k], "SELECT")
    {
      StartsWithSelect(p.children[k]);
    }
    FCP.ChildNeutral(ChildTexts(p));
  }

  /** No line of the statement, children included, is an ORDER BY, OFFSET or FETCH
      clause, and the line after `SELECT` is never `TOP`: this renderer has no ordering,
      paging or row limit. */
  lemma NoOrderingOrPaging(p: QueryPlan)
    requires QueryLines(p).Ok?
    ensures forall l :: l in Lines(p) ==>
      !StartsWith(l, "ORDER BY ") && !StartsWith(l, "OFFSET ") && !StartsWith(l, "FETCH NEXT ")
    ensures !StartsWith(Lines(p)[1], "\tTOP ")
  {
    AllLinesNeutral(p);
    HeadClauses(p);
    forall l | l in Lines(p)
      ensures !StartsWith(l, "ORDER BY ") && !StartsWith(l, "OFFSET ") && !StartsWith(l, "FETCH NEXT ")
    {
      FCP.NeutralNotPaging(l);
    }
  }

  // ---------------------------------------------------------------- re-select and children

  /** Every child of a plan that renders rendered, and its text is the child's SQL. */
  lemma ChildTextsAre(p: QueryPlan)
    requires QueryLines(p).Ok?
    ensures |ChildTexts(p)| == |p.children|
    ensures forall k :: 0 <= k < |p.children| ==>
      QuerySql(p.children[k]).Ok? && ChildTexts(p)[k] == QuerySql(p.children[k]).value
  {
    var rs := ChildResults(p);
    FCP.CollectAll(rs);
    assert forall k :: 0 <= k < |p.children| ==> rs[k] == QuerySql(p.children[k]);
  }

  /** The statement ends with the children, in order, each after a blank line. */
  lemma ChildrenClause(p: QueryPlan)
    requires QueryLines(p).Ok?
    ensures var n, c := |Lines(p)|, |p.children|;
      n >= 2 * c
      && Lines(p)[n - 2 * c..] == FC.ChildChunks(ChildTexts(p))
      && |ChildTexts(p)| == c
      && forall k :: 0 <= k < c ==> QuerySql(p.children[k]).Ok? && ChildTexts(p)[k] == QuerySql(p.children[k]).value
  {
    LinesParts(p);
    ChildTextsAre(p);
    var front := HeadChunks(p) + JoinChunks(p.joins) + WhereChunks(p) + ReselectChunks(p);
    assert Lines(p) == front + FC.ChildChunks(ChildTexts(p));
  }

  /** With `into` set, the four lines before the children re-select the projected
      columns, by alias, from the staging table; temporal columns are not re-selected. */
  lemma ReselectClause(p: QueryPlan)
    requires QueryLines(p).Ok? && Present(p.into)
    ensures var n, c := |Lines(p)|, |p.children|;
      n >= 2 * c + 4
      && Lines(p)[n - 2 * c - 4..n - 2 * c]
         == ["", "SELECT", Join(FC.ReselectLines(p.columns), ",\n"), "FROM " + p.into.value]
  {
    LinesParts(p);
    ChildTextsAre(p);
    var front := HeadChunks(p) + JoinChunks(p.joins) + WhereChunks(p);
    var kids := FC.ChildChunks(ChildTexts(p));
    assert Lines(p) == front + ReselectChunks(p) + kids;
    Parts(front, ReselectChunks(p), kids);
  }

  /** Without `into` nothing sits between the last join or WHERE line and the children:
      there is no re-select. */
  lemma NoReselectWithoutInto(p: QueryPlan)
    requires QueryLines(p).Ok? && !Present(p.into)
    ensures |Lines(p)| == |HeadChunks(p)| + |JoinChunks(p.joins)| + |WhereChunks(p)| + 2 * |p.children|
  {
    LinesParts(p);
    ChildTextsAre(p);
  }

  // ---------------------------------------------------------------- accessors

  /** A table accessor, for the FROM and for every join target alike, ends with
      ` AS [alias] WITH(NOLOCK)` exactly when its alias is a non-empty string, and with
      the table's bracket otherwise. */
  lemma AccessorEnding(t: TableAccessor)
    ensures var r := AccessorSql(t);
      (Present(t.alias) ==> EndsWith(r, " AS " + FC.Bracket(t.alias.value) + " WITH(NOLOCK)"))
      && (!Present(t.alias) ==> EndsWith(r, FC.Bracket(t.table)))
      && |r| > 0 && (Present(t.alias) <==> r[|r| - 1] == ')')
  {
    var db := if Present(t.database) then FC.Bracket(t.database.value) + "." else "";
    var sc := if Present(t.schema) then FC.Bracket(t.schema.value) + "." else "";
    var al := if Present(t.alias) then " AS " + FC.Bracket(t.alias.value) + " WITH(NOLOCK)" else "";
    assert AccessorSql(t) == (db + sc) + FC.Bracket(t.table) + al;
    if Present(t.alias) {
      EndsWithSelf((db + sc) + FC.Bracket(t.table), al);
    } else {
      EndsWithSelf(db + sc, FC.Bracket(t.table));
    }
    FCP.AccessorEnd(FC.Bracket(t.table), al, db + sc, Present(t.alias));
  }

  /** A table accessor starts with the database, else the schema, else the table. */
  lemma AccessorStart(t: TableAccessor)
    ensures var r := AccessorSql(t);
      (Present(t.database) ==> StartsWith(r, FC.Bracket(t.database.value) + "."))
      && (!Present(t.database) && Present(t.schema) ==> StartsWith(r, FC.Bracket(t.schema.value) + "."))
      && (!Present(t.database) && !Present(t.schema) ==> StartsWith(r, FC.Bracket(t.table)))
  {
    var db := if Present(t.database) then FC.Bracket(t.database.value) + "." else "";
    var sc := if Present(t.schema) then FC.Bracket(t.schema.value) + "." else "";
    var al := if Present(t.alias) then " AS " + FC.Bracket(t.alias.value) + " WITH(NOLOCK)" else "";
    var rest := FC.Bracket(t.table) + al;
    assert AccessorSql(t) == db + (sc + rest);
    FCP.StartsWithSelf(db, sc + rest);
    FCP.StartsWithSelf(sc, rest);
    FCP.StartsWithSelf(FC.Bracket(t.table), al);
  }

  /** A join's header reads the join target through the same accessor renderer as FROM:
      `LEFT` or `INNER`, then the accessor, then `ON`. */
  lemma JoinHeaderShape(j: TableJoin)
    ensures var h := JoinHeader(j);
      StartsWith(h, if j.joinType == FC.InnerJoin then "INNER JOIN " else "LEFT JOIN ")
      && EndsWith(h, AccessorSql(j.from) + " ON")
  {
    var kind := if j.joinType == FC.InnerJoin then "INNER JOIN " else "LEFT JOIN ";
    assert JoinHeader(j) == kind + (AccessorSql(j.from) + " ON");
    FCP.StartsWithSelf(kind, AccessorSql(j.from) + " ON");
    EndsWithSelf(kind, AccessorSql(j.from) + " ON");
  }
}
