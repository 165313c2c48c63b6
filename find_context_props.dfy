/** What the find renderer promises about the statement it produces: when it throws,
    where each clause sits, when the pagination clauses appear, how children are
    appended, and the shape of accessors and condition sides. */
module FindContextProps {
  import opened Js
  import opened FindContext

  /** The chunks of a plan that renders. */
  function Lines(p: FindPlan): seq<string>
    requires FindLines(p).Ok?
  {
    FindLines(p).value
  }

  /** The rendered children of a plan that renders. */
  function ChildTexts(p: FindPlan): seq<string>
    requires FindLines(p).Ok?
  {
    FoldResult(CollectStep, [], ChildResults(p)).value
  }

  /** The chunks of a plan that renders, section by section. */
  lemma LinesParts(p: FindPlan)
    requires FindLines(p).Ok?
    ensures |p.columns| + |p.temporalColumns| > 0 && p.from.Some? && !HasSubtree(p.where)
    ensures Lines(p) == HeadChunks(p) + (JoinChunks(p.joins) + (WhereChunks(p) + (TailChunks(p) + ChildChunks(ChildTexts(p)))))
  {
  }

  // ---------------------------------------------------------------- errors

  /** Collecting the rendered children succeeds iff every child rendered; it then holds
      every child's text in order, and otherwise fails with the first child's error. */
  lemma {:induction false} CollectAll(rs: seq<Result<string>>)
    ensures FoldResult(CollectStep, [], rs).Ok? <==> forall i :: 0 <= i < |rs| ==> rs[i].Ok?
    ensures FoldResult(CollectStep, [], rs).Ok? ==>
      |FoldResult(CollectStep, [], rs).value| == |rs|
      && forall i :: 0 <= i < |rs| ==> FoldResult(CollectStep, [], rs).value[i] == rs[i].value
    ensures FoldResult(CollectStep, [], rs).Err? ==>
      exists i :: 0 <= i < |rs| && rs[i].Err? && FoldResult(CollectStep, [], rs).error == rs[i].error
        && forall j :: 0 <= j < i ==> rs[j].Ok?
  {
    if rs != [] {
      var n := |rs| - 1;
      CollectAll(rs[..n]);
      assert forall i :: 0 <= i < n ==> rs[..n][i] == rs[i];
      var prev := FoldResult(CollectStep, [], rs[..n]);
      if prev.Err? {
        assert FoldResult(CollectStep, [], rs) == Err(prev.error);
      } else {
        assert FoldResult(CollectStep, [], rs) == CollectStep(prev.value, rs[n]);
        if rs[n].Ok? {
          assert FoldResult(CollectStep, [], rs).value == prev.value + [rs[n].value];
        }
      }
    }
  }

  /** A plan renders when it projects a column, has a FROM, has no subtree condition,
      and every child renders. */
  predicate Renderable(p: FindPlan)
    decreases p
  {
    |p.columns| + |p.temporalColumns| > 0 && p.from.Some? && !HasSubtree(p.where)
    && forall k :: 0 <= k < |p.children| ==> Renderable(p.children[k])
  }

  /** The errors `toSql` throws, in the order it checks them. */
  lemma FindSqlErrors(p: FindPlan)
    ensures |p.columns| + |p.temporalColumns| == 0 ==> FindSql(p) == Err(Raised(NoProjection))
    ensures |p.columns| + |p.temporalColumns| > 0 && p.from.None? ==> FindSql(p) == Err(Raised(RequiredFrom))
    ensures |p.columns| + |p.temporalColumns| > 0 && p.from.Some? && HasSubtree(p.where) ==>
      FindSql(p) == Err(Raised(SubtreeConditions))
    ensures FindSql(p).Ok? ==> FindLines(p).Ok? && FindSql(p).value == Join(Lines(p), "\n")
  {
  }

  /** A plan renders exactly when it and all its descendants are renderable. */
  lemma {:induction false} RenderableIff(p: FindPlan)
    ensures FindSql(p).Ok? <==> Renderable(p)
    decreases p
  {
    forall k | 0 <= k < |p.children| {
      RenderableIff(p.children[k]);
    }
    var rs := ChildResults(p);
    CollectAll(rs);
    assert forall k :: 0 <= k < |p.children| ==> rs[k] == FindSql(p.children[k]);
  }

  // ---------------------------------------------------------------- the head of the statement

  lemma StartsWithSelf(s: string, t: string)
    ensures StartsWith(s + t, s)
  {
    assert (s + t)[..|s|] == s;
  }

  /** The first two characters of a string that starts with a two-character prefix. */
  lemma FirstTwo(s: string, prefix: string)
    requires |prefix| >= 2 && StartsWith(s, prefix)
    ensures |s| >= 2 && s[0] == prefix[0] && s[1] == prefix[1]
  {
    assert s[..|prefix|][0] == s[0];
    assert s[..|prefix|][1] == s[1];
  }

  /** A column line starts with a tab and a bracket. */
  lemma ColumnLineHead(c: ColumnRef)
    ensures StartsWith("\t" + ColumnSql(c), "\t[")
  {
    var rest := if Present(c.alias) then " AS " + Bracket(c.alias.value) else "";
    if Present(c.source) {
      assert "\t" + ColumnSql(c) == "\t[" + (c.source.value + "]." + Bracket(c.name) + rest);
    } else {
      assert "\t" + ColumnSql(c) == "\t[" + (c.name + "]" + rest);
    }
    StartsWithSelf("\t[", ("\t" + ColumnSql(c))[2..]);
    assert "\t" + ColumnSql(c) == "\t[" + ("\t" + ColumnSql(c))[2..];
  }

  /** Every rendered statement starts with `SELECT`. */
  lemma StartsWithSelect(p: FindPlan)
    requires FindSql(p).Ok?
    ensures StartsWith(FindSql(p).value, "SELECT")
  {
    StartsWithSelf("SELECT", "");
    JoinHead(Lines(p), "\n", "SELECT");
  }

  /** Indexing into the first part of a concatenation. */
  lemma IndexLeft(a: seq<string>, b: seq<string>, i: nat)
    requires i < |a|
    ensures (a + b)[i] == a[i]
  {
  }

  /** A line that starts with a tab and a bracket is not a `TOP` line. */
  lemma NotTop(l: string)
    requires StartsWith(l, "\t[")
    ensures !StartsWith(l, "\tTOP ")
  {
    if StartsWith(l, "\tTOP ") {
      FirstTwo(l, "\tTOP ");
      FirstTwo(l, "\t[");
    }
  }

  /** In the head chunks, `TOP n` is the second chunk exactly when skip is undefined and
      take is defined; otherwise the second chunk is the column list. */
  lemma HeadTop(p: FindPlan)
    requires p.from.Some? && |p.columns| + |p.temporalColumns| > 0
    ensures |HeadChunks(p)| > 1 && HeadChunks(p)[0] == "SELECT"
    ensures HasTop(p) ==> HeadChunks(p)[1] == "\tTOP " + JsString(p.take)
    ensures HasTop(p) <==> StartsWith(HeadChunks(p)[1], "\tTOP ")
  {
    if HasTop(p) {
      StartsWithSelf("\tTOP ", JsString(p.take));
    } else {
      JoinColumns(p);
      NotTop(HeadChunks(p)[1]);
    }
  }

  /** `TOP n` is the second line exactly when skip is undefined and take is defined;
      otherwise the second line is the column list. */
  lemma TopClause(p: FindPlan)
    requires FindLines(p).Ok?
    ensures |Lines(p)| > 1 && Lines(p)[0] == "SELECT"
    ensures HasTop(p) <==> StartsWith(Lines(p)[1], "\tTOP ")
    ensures HasTop(p) ==> Lines(p)[1] == "\tTOP " + JsString(p.take)
  {
    LinesParts(p);
    HeadTop(p);
    var rest := JoinChunks(p.joins) + (WhereChunks(p) + (TailChunks(p) + ChildChunks(ChildTexts(p))));
    IndexLeft(HeadChunks(p), rest, 0);
    IndexLeft(HeadChunks(p), rest, 1);
  }

  /** The column list line starts with a tab and a bracket: projected columns come first,
      temporal columns after them. */
  lemma JoinColumns(p: FindPlan)
    requires |p.columns| + |p.temporalColumns| > 0
    ensures StartsWith(Join(ColumnLines(p.columns) + ColumnLines(p.temporalColumns), ",\n"), "\t[")
  {
    var cols := ColumnLines(p.columns) + ColumnLines(p.temporalColumns);
    if |p.columns| > 0 {
      ColumnLineHead(p.columns[0]);
    } else {
      ColumnLineHead(p.temporalColumns[0]);
    }
    JoinHead(cols, ",\n", "\t[");
  }

  /** `INTO <into>` follows the column list exactly when `into` is set; the head always
      ends with the FROM accessor. */
  lemma HeadInto(p: FindPlan)
    requires p.from.Some? && |p.columns| + |p.temporalColumns| > 0
    ensures var t := |TopChunks(p)|;
      |HeadChunks(p)| == t + 3 + |IntoChunks(p)|
      && (Present(p.into) <==> StartsWith(HeadChunks(p)[t + 2], "INTO "))
      && (Present(p.into) ==> HeadChunks(p)[t + 2] == "INTO " + p.into.value)
      && HeadChunks(p)[|HeadChunks(p)| - 1] == "FROM " + TableAccessorSql(p.from.value)
  {
    var t := |TopChunks(p)|;
    if Present(p.into) {
      StartsWithSelf("INTO ", p.into.value);
    } else {
      var l := HeadChunks(p)[t + 2];
      assert l == "FROM " + TableAccessorSql(p.from.value);
      if StartsWith(l, "INTO ") {
        FirstTwo(l, "INTO ");
      }
    }
  }

  /** The INTO line sits right after the column list exactly when `into` is set, and
      the FROM line comes right after it. */
  lemma IntoClause(p: FindPlan)
    requires FindLines(p).Ok?
    ensures var t := |TopChunks(p)|;
      |Lines(p)| >= t + 3 + |IntoChunks(p)|
      && (Present(p.into) <==> StartsWith(Lines(p)[t + 2], "INTO "))
      && (Present(p.into) ==> Lines(p)[t + 2] == "INTO " + p.into.value
                               && Lines(p)[t + 3] == "FROM " + TableAccessorSql(p.from.value))
      && (!Present(p.into) ==> Lines(p)[t + 2] == "FROM " + TableAccessorSql(p.from.value))
  {
    LinesParts(p);
    HeadInto(p);
    var t := |TopChunks(p)|;
    var rest := JoinChunks(p.joins) + (WhereChunks(p) + (TailChunks(p) + ChildChunks(ChildTexts(p))));
    IndexLeft(HeadChunks(p), rest, t + 2);
    if Present(p.into) {
      IndexLeft(HeadChunks(p), rest, t + 3);
    }
  }

  /** The statement's sections regrouped so that the last two can be indexed from the end. */
  lemma Regroup(h: seq<string>, j: seq<string>, w: seq<string>, o: seq<string>, r: seq<string>, c: seq<string>)
    ensures h + (j + (w + ((o + r) + c))) == ((h + (j + (w + o))) + r) + c
  {
  }

  /** Every child of a plan that renders rendered, and its text is the child's SQL. */
  lemma ChildTextsAre(p: FindPlan)
    requires FindLines(p).Ok?
    ensures |ChildTexts(p)| == |p.children|
    ensures forall k :: 0 <= k < |p.children| ==>
      FindSql(p.children[k]).Ok? && ChildTexts(p)[k] == FindSql(p.children[k]).value
  {
    var rs := ChildResults(p);
    CollectAll(rs);
    assert forall k :: 0 <= k < |p.children| ==> rs[k] == FindSql(p.children[k]);
  }

  /** The statement ends with the children, in order, each after a blank line. */
  lemma ChildrenClause(p: FindPlan)
    requires FindLines(p).Ok?
    ensures var n, c := |Lines(p)|, |p.children|;
      n >= 2 * c
      && Lines(p)[n - 2 * c..] == ChildChunks(ChildTexts(p))
      && |ChildTexts(p)| == c
      && forall k :: 0 <= k < c ==> FindSql(p.children[k]).Ok? && ChildTexts(p)[k] == FindSql(p.children[k]).value
  {
    LinesParts(p);
    ChildTextsAre(p);
    Regroup(HeadChunks(p), JoinChunks(p.joins), WhereChunks(p), OrderChunks(p), ReselectChunks(p),
      ChildChunks(ChildTexts(p)));
    var pre := (HeadChunks(p) + (JoinChunks(p.joins) + (WhereChunks(p) + OrderChunks(p)))) + ReselectChunks(p);
    assert Lines(p) == pre + ChildChunks(ChildTexts(p));
  }

  /** With `into` set, the four lines before the children re-select the projected
      columns, by alias, from the staging table; temporal columns are not re-selected. */
  lemma ReselectClause(p: FindPlan)
    requires FindLines(p).Ok? && Present(p.into)
    ensures var n, c := |Lines(p)|, |p.children|;
      n >= 2 * c + 4
      && Lines(p)[n - 2 * c - 4..n - 2 * c]
         == ["", "SELECT", Join(ReselectLines(p.columns), ",\n"), "FROM " + p.into.value]
  {
    LinesParts(p);
    ChildTextsAre(p);
    var front := HeadChunks(p) + (JoinChunks(p.joins) + (WhereChunks(p) + OrderChunks(p)));
    var kids := ChildChunks(ChildTexts(p));
    Regroup(HeadChunks(p), JoinChunks(p.joins), WhereChunks(p), OrderChunks(p), ReselectChunks(p), kids);
    assert Lines(p) == front + ReselectChunks(p) + kids;
    Parts(front, ReselectChunks(p), kids);
  }

  // ---------------------------------------------------------------- ordering and paging

  /** A line of a clause other than ORDER BY, OFFSET and FETCH: empty, indented, or
      starting with `SELECT`, `INTO`, `LEFT`, `INNER`, `WHERE` or `FROM`. */
  predicate Neutral(l: string)
  {
    |l| == 0 || l[0] in {'\t', 'S', 'I', 'L', 'W'} || (|l| > 1 && l[0] == 'F' && l[1] == 'R')
  }

  predicate AllNeutral(ls: seq<string>)
  {
    forall i :: 0 <= i < |ls| ==> Neutral(ls[i])
  }

  lemma NeutralNotPaging(l: string)
    requires Neutral(l)
    ensures !StartsWith(l, "ORDER BY ") && !StartsWith(l, "OFFSET ") && !StartsWith(l, "FETCH NEXT ")
  {
    if StartsWith(l, "ORDER BY ") { FirstTwo(l, "ORDER BY "); }
    if StartsWith(l, "OFFSET ") { FirstTwo(l, "OFFSET "); }
    if StartsWith(l, "FETCH NEXT ") { FirstTwo(l, "FETCH NEXT "); }
  }

  lemma NeutralPrefix(l: string, prefix: string)
    requires |prefix| >= 2 && StartsWith(l, prefix) && Neutral(prefix)
    ensures Neutral(l)
  {
    FirstTwo(l, prefix);
  }

  lemma NeutralConcat(a: seq<string>, b: seq<string>)
    requires AllNeutral(a) && AllNeutral(b)
    ensures AllNeutral(a + b)
  {
  }

  lemma HeadNeutral(p: FindPlan)
    requires p.from.Some? && |p.columns| + |p.temporalColumns| > 0
    ensures AllNeutral(HeadChunks(p))
  {
    JoinColumns(p);
    FirstTwo(Join(ColumnLines(p.columns) + ColumnLines(p.temporalColumns), ",\n"), "\t[");
    StartsWithSelf("FROM ", TableAccessorSql(p.from.value));
    FirstTwo("FROM " + TableAccessorSql(p.from.value), "FROM ");
  }

  lemma CondLinesNeutral(conds: seq<Cond>)
    ensures AllNeutral(CondLines(conds))
  {
  }

  lemma {:induction false} JoinNeutral(joins: seq<TableJoin>)
    ensures AllNeutral(JoinChunks(joins))
    decreases |joins|
  {
    if joins != [] {
      var j := joins[|joins| - 1];
      JoinNeutral(joins[..|joins| - 1]);
      CondLinesNeutral(j.conditions);
      assert Neutral(JoinHeader(j));
      NeutralConcat(JoinChunks(joins[..|joins| - 1]), [JoinHeader(j)]);
      NeutralConcat(JoinChunks(joins[..|joins| - 1]) + [JoinHeader(j)], CondLines(j.conditions));
    }
  }

  lemma {:induction false} WhereNeutral(where: seq<Condition>)
    ensures AllNeutral(WhereLines(where))
    decreases |where|
  {
    if where != [] {
      var c := where[|where| - 1];
      WhereNeutral(where[..|where| - 1]);
      NeutralConcat(WhereLines(where[..|where| - 1]), if c.Leaf? then ["\t" + CondSql(c.cond)] else []);
    }
  }

  lemma ReselectNeutral(p: FindPlan)
    ensures AllNeutral(ReselectChunks(p))
  {
    if Present(p.into) {
      var lines := ReselectLines(p.columns);
      if |lines| > 0 {
        StartsWithSelf("\t", lines[0][1..]);
        assert lines[0] == "\t" + lines[0][1..];
        JoinHead(lines, ",\n", "\t");
        assert StartsWith(Join(lines, ",\n"), "\t");
        assert Join(lines, ",\n")[..1][0] == Join(lines, ",\n")[0];
      }
      StartsWithSelf("FROM ", p.into.value);
      FirstTwo("FROM " + p.into.value, "FROM ");
    }
  }

  lemma {:induction false} ChildNeutral(sqls: seq<string>)
    requires forall k :: 0 <= k < |sqls| ==> StartsWith(sqls[k], "SELECT")
    ensures AllNeutral(ChildChunks(sqls))
  {
    if sqls != [] {
      var n := |sqls| - 1;
      assert forall k :: 0 <= k < n ==> sqls[..n][k] == sqls[k];
      ChildNeutral(sqls[..n]);
      FirstTwo(sqls[n], "SELECT");
      assert AllNeutral(["", sqls[n]]);
      NeutralConcat(ChildChunks(sqls[..n]), ["", sqls[n]]);
    }
  }

  /** The three lines the ordering section can hold. */
  function OrderByLine(p: FindPlan): string { "ORDER BY " + Join(OrderItems(p.orderBy), ",") }
  function OffsetLine(p: FindPlan): string { "OFFSET " + JsString(p.skip) + " ROWS" }
  function FetchLine(p: FindPlan): string { "FETCH NEXT " + JsString(p.take) + " ROWS ONLY" }

  /** The ordering section lists those lines in order, as far as the plan has them. */
  lemma OrderChunksShape(p: FindPlan)
    ensures OrderChunks(p) ==
      if |p.orderBy| == 0 then []
      else if p.skip.Undefined? then [OrderByLine(p)]
      else if p.take.Undefined? then [OrderByLine(p), OffsetLine(p)]
      else [OrderByLine(p), OffsetLine(p), FetchLine(p)]
  {
  }

  /** Each of the three lines starts with its own keyword and with neither of the others. */
  lemma OrderPrefixes(p: FindPlan)
    ensures StartsWith(OrderByLine(p), "ORDER BY ")
    ensures !StartsWith(OrderByLine(p), "OFFSET ") && !StartsWith(OrderByLine(p), "FETCH NEXT ")
    ensures StartsWith(OffsetLine(p), "OFFSET ")
    ensures !StartsWith(OffsetLine(p), "ORDER BY ") && !StartsWith(OffsetLine(p), "FETCH NEXT ")
    ensures StartsWith(FetchLine(p), "FETCH NEXT ")
    ensures !StartsWith(FetchLine(p), "ORDER BY ") && !StartsWith(FetchLine(p), "OFFSET ")
  {
    var order, offset, fetch := OrderByLine(p), OffsetLine(p), FetchLine(p);
    StartsWithSelf("ORDER BY ", Join(OrderItems(p.orderBy), ","));
    StartsWithSelf("OFFSET ", JsString(p.skip) + " ROWS");
    assert offset == "OFFSET " + (JsString(p.skip) + " ROWS");
    StartsWithSelf("FETCH NEXT ", JsString(p.take) + " ROWS ONLY");
    assert fetch == "FETCH NEXT " + (JsString(p.take) + " ROWS ONLY");
    FirstTwo(order, "ORDER BY ");
    FirstTwo(offset, "OFFSET ");
    FirstTwo(fetch, "FETCH NEXT ");
    if StartsWith(order, "OFFSET ") { FirstTwo(order, "OFFSET "); }
    if StartsWith(order, "FETCH NEXT ") { FirstTwo(order, "FETCH NEXT "); }
    if StartsWith(offset, "ORDER BY ") { FirstTwo(offset, "ORDER BY "); }
    if StartsWith(offset, "FETCH NEXT ") { FirstTwo(offset, "FETCH NEXT "); }
    if StartsWith(fetch, "ORDER BY ") { FirstTwo(fetch, "ORDER BY "); }
    if StartsWith(fetch, "OFFSET ") { FirstTwo(fetch, "OFFSET "); }
  }

  /** A list of lines holds one starting with `prefix` iff one of its entries does. */
  predicate HasLine(lines: seq<string>, prefix: string)
  {
    exists l :: l in lines && StartsWith(l, prefix)
  }

  /** Which of the ORDER BY, OFFSET and FETCH lines the ordering section holds. */
  lemma OrderLines(p: FindPlan)
    ensures (exists l :: l in OrderChunks(p) && StartsWith(l, "ORDER BY ")) <==> |p.orderBy| > 0
    ensures (exists l :: l in OrderChunks(p) && StartsWith(l, "OFFSET ")) <==>
      |p.orderBy| > 0 && !p.skip.Undefined?
    ensures (exists l :: l in OrderChunks(p) && StartsWith(l, "FETCH NEXT ")) <==>
      |p.orderBy| > 0 && !p.skip.Undefined? && !p.take.Undefined?
  {
    OrderChunksShape(p);
    OrderPrefixes(p);
    OrderByPresent(p);
    OffsetPresent(p);
    FetchPresent(p);
  }

  lemma OrderByPresent(p: FindPlan)
    ensures HasLine(OrderChunks(p), "ORDER BY ") <==> |p.orderBy| > 0
  {
    OrderChunksShape(p);
    OrderPrefixes(p);
  }

  lemma OffsetPresent(p: FindPlan)
    ensures HasLine(OrderChunks(p), "OFFSET ") <==> |p.orderBy| > 0 && !p.skip.Undefined?
  {
    OrderChunksShape(p);
    OrderPrefixes(p);
  }

  lemma FetchPresent(p: FindPlan)
    ensures HasLine(OrderChunks(p), "FETCH NEXT ") <==>
      |p.orderBy| > 0 && !p.skip.Undefined? && !p.take.Undefined?
  {
    OrderChunksShape(p);
    OrderPrefixes(p);
  }

  /** `ORDER BY` appears iff there is an ordering; `OFFSET n ROWS` iff there is also a
      skip; `FETCH NEXT m ROWS ONLY` iff there is also a take. A skip or take without an
      ordering leaves no paging clause (a take alone still gives `TOP`). */
  lemma PaginationClauses(p: FindPlan)
    requires FindLines(p).Ok?
    ensures (exists l :: l in Lines(p) && StartsWith(l, "ORDER BY ")) <==> |p.orderBy| > 0
    ensures (exists l :: l in Lines(p) && StartsWith(l, "OFFSET ")) <==>
      |p.orderBy| > 0 && !p.skip.Undefined?
    ensures (exists l :: l in Lines(p) && StartsWith(l, "FETCH NEXT ")) <==>
      |p.orderBy| > 0 && !p.skip.Undefined? && !p.take.Undefined?
  {
    LinesParts(p);
    SectionsNeutral(p);
    OrderLines(p);
    Isolate(HeadChunks(p), JoinChunks(p.joins), WhereChunks(p), OrderChunks(p), ReselectChunks(p),
      ChildChunks(ChildTexts(p)));
  }

  /** No section but the ordering holds a paging line. */
  lemma SectionsNeutral(p: FindPlan)
    requires FindLines(p).Ok?
    ensures AllNeutral(HeadChunks(p)) && AllNeutral(JoinChunks(p.joins)) && AllNeutral(WhereChunks(p))
      && AllNeutral(ReselectChunks(p)) && AllNeutral(ChildChunks(ChildTexts(p)))
  {
    LinesParts(p);
    HeadNeutral(p);
    JoinNeutral(p.joins);
    WhereNeutral(p.where);
    assert AllNeutral(WhereChunks(p)) by {
      NeutralConcat(["WHERE"], WhereLines(p.where));
    }
    ReselectNeutral(p);
    ChildrenNeutral(p);
  }

  /** Every child statement starts with `SELECT`, so the child section is neutral. */
  lemma ChildrenNeutral(p: FindPlan)
    requires FindLines(p).Ok?
    ensures AllNeutral(ChildChunks(ChildTexts(p)))
  {
    ChildTextsAre(p);
    forall k | 0 <= k < |ChildTexts(p)|
      ensures StartsWith(ChildTexts(p)[k], "SELECT")
    {
      StartsWithSelect(p.children[k]);
    }
    ChildNeutral(ChildTexts(p));
  }

  /** In a statement whose sections other than the ordering are neutral, the paging
      lines are those of the ordering section. */
  lemma Isolate(h: seq<string>, j: seq<string>, w: seq<string>, o: seq<string>, r: seq<string>, c: seq<string>)
    requires AllNeutral(h) && AllNeutral(j) && AllNeutral(w) && AllNeutral(r) && AllNeutral(c)
    ensures var all := h + (j + (w + ((o + r) + c)));
      && ((exists l :: l in all && StartsWith(l, "ORDER BY ")) <==> (exists l :: l in o && StartsWith(l, "ORDER BY ")))
      && ((exists l :: l in all && StartsWith(l, "OFFSET ")) <==> (exists l :: l in o && StartsWith(l, "OFFSET ")))
      && ((exists l :: l in all && StartsWith(l, "FETCH NEXT ")) <==> (exists l :: l in o && StartsWith(l, "FETCH NEXT ")))
  {
    var all := h + (j + (w + ((o + r) + c)));
    forall l | l in all && l !in o
      ensures !StartsWith(l, "ORDER BY ") && !StartsWith(l, "OFFSET ") && !StartsWith(l, "FETCH NEXT ")
    {
      assert l in h || l in j || l in w || l in r || l in c;
      assert Neutral(l);
      NeutralNotPaging(l);
    }
  }

  // ---------------------------------------------------------------- accessors and sides

  /** A table accessor ends with the lock hint exactly when it has an alias, and starts
      with the database, else the schema, when those are given. */
  lemma TableAccessorShape(a: Accessor)
    requires a.TableAccess?
    ensures var r := TableAccessorSql(a);
      |r| > 0
      && (a.alias.Some? <==> r[|r| - 1] == ')')
      && (Present(a.database) ==> StartsWith(r, Bracket(a.database.value) + "."))
      && (!Present(a.database) && Present(a.schema) ==> StartsWith(r, Bracket(a.schema.value) + "."))
      && (!Present(a.database) && !Present(a.schema) ==> StartsWith(r, Bracket(a.table)))
  {
    TableAccessorStart(a);
    var db := if Present(a.database) then Bracket(a.database.value) + "." else "";
    var sc := if Present(a.schema) then Bracket(a.schema.value) + "." else "";
    var al := if a.alias.Some? then " AS " + Bracket(a.alias.value) + " WITH(NOLOCK)" else "";
    assert TableAccessorSql(a) == db + sc + Bracket(a.table) + al;
    AccessorEnd(Bracket(a.table), al, db + sc, a.alias.Some?);
  }

  /** The leading part of a table accessor: the database, else the schema, else the table. */
  lemma TableAccessorStart(a: Accessor)
    requires a.TableAccess?
    ensures var r := TableAccessorSql(a);
      (Present(a.database) ==> StartsWith(r, Bracket(a.database.value) + "."))
      && (!Present(a.database) && Present(a.schema) ==> StartsWith(r, Bracket(a.schema.value) + "."))
      && (!Present(a.database) && !Present(a.schema) ==> StartsWith(r, Bracket(a.table)))
  {
    var db := if Present(a.database) then Bracket(a.database.value) + "." else "";
    var sc := if Present(a.schema) then Bracket(a.schema.value) + "." else "";
    var al := if a.alias.Some? then " AS " + Bracket(a.alias.value) + " WITH(NOLOCK)" else "";
    var tbl := Bracket(a.table);
    assert TableAccessorSql(a) == ((db + sc) + tbl) + al;
    if Present(a.database) {
      StartsWithSelf(db, sc);
      StartsWithConcat(db + sc, tbl, db);
      StartsWithConcat((db + sc) + tbl, al, db);
    } else if Present(a.schema) {
      assert db + sc == sc;
      StartsWithSelf(sc, tbl);
      StartsWithConcat(sc + tbl, al, sc);
    } else {
      assert (db + sc) + tbl == tbl;
      StartsWithSelf(tbl, al);
    }
  }

  /** The last character of an accessor: `)` of the lock hint, else `]` of the table. */
  lemma AccessorEnd(table: string, al: string, front: string, hasAlias: bool)
    requires |table| > 0 && table[|table| - 1] == ']'
    requires hasAlias ==> |al| > 0 && al[|al| - 1] == ')'
    requires !hasAlias ==> al == ""
    ensures var r := front + table + al; |r| > 0 && (hasAlias <==> r[|r| - 1] == ')')
  {
  }

  /** A temporal accessor starts with the bare object name and carries no lock hint:
      with an alias it ends with the alias bracket. */
  lemma TemporalAccessorShape(a: Accessor)
    requires a.TemporalAccess?
    ensures var r := TemporalAccessorSql(a);
      StartsWith(r, a.objectName)
      && (a.alias.Some? ==> r[|r| - 1] == ']')
      && (a.alias.None? ==> r == a.objectName)
  {
    StartsWithSelf(a.objectName, if a.alias.Some? then " AS " + Bracket(a.alias.value) else "");
  }

  /** The object accessor the one-to-many builder creates has no `object` property, so
      a join on it prints `undefined` whatever its name. */
  lemma ObjectJoinLosesName(j: TableJoin, other: string)
    requires j.from.ObjectAccess?
    ensures JoinHeader(j) == JoinHeader(j.(from := ObjectAccess(other, j.from.alias)))
    ensures StartsWith(TemporalAccessorSql(j.from), "undefined")
  {
    StartsWithSelf("undefined", if j.from.alias.Some? then " AS " + Bracket(j.from.alias.value) else "");
  }

  /** A string side has only its first quote doubled: one quote more than the input
      when it has any. */
  lemma StringSideQuotes(t: string)
    ensures Count(SideSql(StrSide(t)), '\'') == if Count(t, '\'') == 0 then 0 else Count(t, '\'') + 1
  {
    ReplaceFirstCount(t);
  }

  /** A column side is bracketed, with the source prefix only when a source is given. */
  lemma ColumnSideShape(source: Option<string>, column: string)
    ensures var r := SideSql(ColumnSide(source, column));
      |r| >= 2 && r[0] == '[' && r[|r| - 1] == ']'
      && (Present(source) <==> |r| > |column| + 2)
  {
  }

  // ---------------------------------------------------------------- `in` conditions

  /** As written, every condition with a list on its right prints the list as
      `undefined`: the text forgets the list, and it never is what the intended
      renderer writes. */
  lemma {:induction false} InConditionUndefined(c: Cond)
    requires c.right.List?
    ensures CondSql(c) == CondSql(Cond(c.left, c.operator, List([])))
    ensures EndsWith(CondSql(c), " undefined")
    ensures CondSql(c) != CondSqlIntended(c)
  {
    var p := SideSql(c.left) + " " + c.operator + " ";
    var inner := Join(SideList(c.right.sides), ",");
    assert CondSql(c) == p + "undefined";
    assert CondSqlIntended(c) == p + ("(" + inner + ")");
    assert (p + "undefined")[|p|] == 'u';
    assert (p + ("(" + inner + ")"))[|p|] == '(';
    assert CondSql(c)[|CondSql(c)| - 10..] == " undefined";
  }

  /** Where the right side is a single side, the two renderers write the same text. */
  lemma SingleConditionAgrees(c: Cond)
    requires c.right.Single?
    ensures CondSql(c) == CondSqlIntended(c)
  {
  }

  lemma {:induction false} SideListItems(sides: seq<Side>)
    ensures |SideList(sides)| == |sides|
    ensures forall i :: 0 <= i < |sides| ==> SideList(sides)[i] == SideSql(sides[i])
    decreases |sides|
  {
    if sides != [] {
      SideListItems(sides[..|sides| - 1]);
    }
  }

  /** The intended renderer writes the list between parentheses; splitting the text
      inside them at the commas gives back every rendered side, in order. */
  lemma InListRoundTrip(c: Cond)
    requires c.right.List? && |c.right.sides| > 0
    requires forall s :: s in c.right.sides ==> ',' !in SideSql(s)
    ensures var r, k := CondSqlIntended(c), |SideSql(c.left)| + |c.operator| + 3;
      k < |r| && r[k - 1] == '(' && r[|r| - 1] == ')'
      && Split(r[k..|r| - 1], ',') == SideList(c.right.sides)
  {
    var parts := SideList(c.right.sides);
    SideListItems(c.right.sides);
    var inner := Join(parts, ",");
    var k := |SideSql(c.left)| + |c.operator| + 3;
    var r := CondSqlIntended(c);
    assert r == (SideSql(c.left) + " " + c.operator + " (") + inner + ")";
    assert |SideSql(c.left) + " " + c.operator + " ("| == k;
    assert r[k..|r| - 1] == inner;
    forall q | q in parts
      ensures ',' !in q
    {
      var i :| 0 <= i < |parts| && parts[i] == q;
      assert c.right.sides[i] in c.right.sides;
    }
    SplitJoin(parts, ',');
  }
}
