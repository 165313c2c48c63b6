/** What the aggregate builder and renderer promise: request lists in key order with
    `<type>.<field>` aliases, the fixed order of output columns, TOP and paging as in
    the find statement, and a single statement without joins. */
module AggregateProps {
  import opened Js
  import opened Schema
  import opened FindContext
  import opened FindContextProps
  import opened WhereBuilder
  import opened FindBuilder
  import opened FindBuilderProps
  import opened AggregateContext
  import opened AggregateBuilder

  /** A request list succeeds exactly when every key is a column; it then holds one
      entry per key, in key order, read from `source` and aliased `<type>.<field>`;
      otherwise it throws naming the first key that is not a column. */
  lemma AgrFold(kind: string, source: string, columns: seq<Column>, entries: Fields)
    ensures var r := FoldResult(AgrStep(kind, source, columns), [], entries);
      (r.Ok? <==> AllColumns(columns, entries))
      && (r.Ok? ==>
            |r.value| == |entries|
            && forall k :: 0 <= k < |entries| ==>
                 r.value[k] == ColumnRef(Some(source), FindColumn(columns, entries[k].0).value.columnName,
                                         Some(kind + "." + entries[k].0)))
      && (r.Err? ==>
            exists k :: 0 <= k < |entries| && FindColumn(columns, entries[k].0).None?
                        && AllColumns(columns, entries[..k])
                        && r.error == Raised(InvalidField(entries[k].0)))
  {
    var step := AgrStep(kind, source, columns);
    var ok := (e: (string, Value)) => FindColumn(columns, e.0).Some?;
    var err := (e: (string, Value)) => Raised(InvalidField(e.0));
    forall s, e ensures (step(s, e).Ok? <==> ok(e)) && (step(s, e).Err? ==> step(s, e).error == err(e)) {
    }
    FoldResultOkIff(step, [], entries, ok);
    assert AllColumns(columns, entries) <==> forall j :: 0 <= j < |entries| ==> ok(entries[j]);
    if AllColumns(columns, entries) {
      AgrFoldOk(kind, source, columns, entries);
    } else {
      FoldResultFirstError(step, [], entries, ok, err);
      var k := FirstBad(entries, ok);
      assert FoldResult(step, [], entries) == Err(err(entries[k]));
      assert AllColumns(columns, entries[..k]) by {
        forall j | 0 <= j < k ensures FindColumn(columns, entries[..k][j].0).Some? {
          assert entries[..k][j] == entries[j] && ok(entries[j]);
        }
      }
    }
  }

  lemma AgrFoldOk(kind: string, source: string, columns: seq<Column>, entries: Fields)
    requires AllColumns(columns, entries)
    ensures var r := FoldResult(AgrStep(kind, source, columns), [], entries);
      r.Ok? && |r.value| == |entries|
      && forall k :: 0 <= k < |entries| ==>
           r.value[k] == ColumnRef(Some(source), FindColumn(columns, entries[k].0).value.columnName,
                                   Some(kind + "." + entries[k].0))
  {
    var step := AgrStep(kind, source, columns);
    var init: seq<ColumnRef> := [];
    var ok := (e: (string, Value)) => FindColumn(columns, e.0).Some?;
    var g := (e: (string, Value)) =>
      ColumnRef(Some(source), if ok(e) then FindColumn(columns, e.0).value.columnName else "", Some(kind + "." + e.0));
    forall s, e | ok(e) ensures step(s, e) == Ok(s + [g(e)]) {
    }
    FoldResultMaps(step, init, entries, ok, g);
    var r := FoldResult(step, init, entries).value;
    forall k | 0 <= k < |entries|
      ensures r[k] == ColumnRef(Some(source), FindColumn(columns, entries[k].0).value.columnName,
                                Some(kind + "." + entries[k].0))
    {
      assert ok(entries[k]) && r[k] == r[|init| + k] == g(entries[k]);
    }
  }

  /** The part of `build` before the aggregate lists: the root table read as `root`,
      skip and take copied, `count` exactly when the argument is `true`, and absent
      where/orderBy leave no trace. */
  lemma HeadShape(entity: Entity, args: Value, buildWhere: WhereFn)
    ensures Nullish(args) ==> HeadOf(entity, args, buildWhere).Err?
                              && HeadOf(entity, args, buildWhere).error.TypeError?
    ensures HeadOf(entity, args, buildWhere).Ok? ==>
      var p := HeadOf(entity, args, buildWhere).value;
      p.from == Assigned(BuildTableAccessor(entity.tableName, "root", entity.schema, entity.database))
      && p.skip == Prop(args, "skip") && p.take == Prop(args, "take")
      && (p.count <==> Prop(args, "count") == Bool(true))
      && (!Truthy(Prop(args, "where")) ==> p.params == [] && p.where == [])
      && (!Truthy(Prop(args, "orderBy")) ==> p.orderBy == [])
      && p.avg == [] && p.max == [] && p.min == [] && p.sum == []
  {
  }

  /** The list of one request: one entry per key, in key order, read from `root` and
      aliased `<kind>.<field>`. */
  predicate RequestList(kind: string, columns: seq<Column>, entries: Fields, list: seq<ColumnRef>)
  {
    AllColumns(columns, entries) && |list| == |entries|
    && forall k :: 0 <= k < |entries| ==>
         list[k] == ColumnRef(Some("root"), FindColumn(columns, entries[k].0).value.columnName,
                              Some(kind + "." + entries[k].0))
  }

  /** One `buildAgrRequest` call: it succeeds exactly when every key of the request is a
      column, giving that request's list; an undefined request gives the empty list. */
  lemma RequestShape(kind: string, entity: Entity, request: Value)
    ensures var r := AgrRequest(kind, "root", entity, request);
      (r.Ok? <==> AllColumns(entity.columns, Entries(request)))
      && (r.Ok? ==> RequestList(kind, entity.columns, Entries(request), r.value))
      && (request.Undefined? ==> r == Ok([]))
  {
    AgrFold(kind, "root", entity.columns, Entries(request));
  }

  /** The four aggregate lists: `build` succeeds on them exactly when every key of the
      `avg`, `max`, `min` and `sum` requests is a column; each list is then its request
      in key order, aliased `<type>.<field>` (empty for an undefined request); otherwise
      the error is that of the first request, in the order avg, max, min, sum, that
      names a key which is not a column. */
  lemma AggregatesShape(entity: Entity, args: Value)
    requires !Nullish(args)
    ensures var cs := entity.columns;
      AggregatesOf(entity, args).Ok? <==>
        AllColumns(cs, Entries(Prop(args, "avg"))) && AllColumns(cs, Entries(Prop(args, "max")))
        && AllColumns(cs, Entries(Prop(args, "min"))) && AllColumns(cs, Entries(Prop(args, "sum")))
    ensures AggregatesOf(entity, args).Ok? ==>
      var a, cs := AggregatesOf(entity, args).value, entity.columns;
      RequestList("avg", cs, Entries(Prop(args, "avg")), a.avg)
      && RequestList("max", cs, Entries(Prop(args, "max")), a.max)
      && RequestList("min", cs, Entries(Prop(args, "min")), a.min)
      && RequestList("sum", cs, Entries(Prop(args, "sum")), a.sum)
    ensures AggregatesOf(entity, args).Ok? ==>
      var a := AggregatesOf(entity, args).value;
      (Prop(args, "avg").Undefined? ==> a.avg == []) && (Prop(args, "max").Undefined? ==> a.max == [])
      && (Prop(args, "min").Undefined? ==> a.min == []) && (Prop(args, "sum").Undefined? ==> a.sum == [])
    ensures AggregatesOf(entity, args).Err? ==>
      var e := AggregatesOf(entity, args).error;
      if AgrRequest("avg", "root", entity, Prop(args, "avg")).Err? then e == AgrRequest("avg", "root", entity, Prop(args, "avg")).error
      else if AgrRequest("max", "root", entity, Prop(args, "max")).Err? then e == AgrRequest("max", "root", entity, Prop(args, "max")).error
      else if AgrRequest("min", "root", entity, Prop(args, "min")).Err? then e == AgrRequest("min", "root", entity, Prop(args, "min")).error
      else AgrRequest("sum", "root", entity, Prop(args, "sum")).Err? && e == AgrRequest("sum", "root", entity, Prop(args, "sum")).error
  {
    RequestShape("avg", entity, Prop(args, "avg"));
    RequestShape("max", entity, Prop(args, "max"));
    RequestShape("min", entity, Prop(args, "min"));
    RequestShape("sum", entity, Prop(args, "sum"));
  }

  /** `build` is its head followed by its aggregate lists; either part's error is the
      error of the whole. */
  lemma AggregateBuildShape(entity: Entity, args: Value, buildWhere: WhereFn)
    ensures HeadOf(entity, args, buildWhere).Err? ==>
      AggregatePlanOf(entity, args, buildWhere) == Err(HeadOf(entity, args, buildWhere).error)
    ensures HeadOf(entity, args, buildWhere).Ok? ==> !Nullish(args)
    ensures HeadOf(entity, args, buildWhere).Ok? && AggregatesOf(entity, args).Err? ==>
      AggregatePlanOf(entity, args, buildWhere) == Err(AggregatesOf(entity, args).error)
    ensures AggregatePlanOf(entity, args, buildWhere).Ok? ==>
      var p, h, a := AggregatePlanOf(entity, args, buildWhere).value, HeadOf(entity, args, buildWhere).value,
        AggregatesOf(entity, args).value;
      p == h.(avg := a.avg, max := a.max, min := a.min, sum := a.sum)
  {
    HeadShape(entity, args, buildWhere);
  }

  /** The output columns come in a fixed order: `COUNT(*) AS [count]` when counting,
      then the AVG, MAX, MIN and SUM lines, each list in the order of its entries. */
  lemma OutputOrder(p: AggregatePlan)
    ensures var c := CountWidth(p);
      var a := CountWidth(p) + |p.avg|;
      var m := CountWidth(p) + |p.avg| + |p.max|;
      var n := CountWidth(p) + |p.avg| + |p.max| + |p.min|;
      var o := OutputColumns(p);
      |o| == n + |p.sum| && o[..c] == (if p.count then [CountLine] else [])
      && o[c..a] == AggregateLines("AVG", p.avg) && o[a..m] == AggregateLines("MAX", p.max)
      && o[m..n] == AggregateLines("MIN", p.min) && o[n..] == AggregateLines("SUM", p.sum)
  {
    var cnt: seq<string> := if p.count then [CountLine] else [];
    var avg, max := AggregateLines("AVG", p.avg), AggregateLines("MAX", p.max);
    var min, sum := AggregateLines("MIN", p.min), AggregateLines("SUM", p.sum);
    var c := CountWidth(p);
    var a := CountWidth(p) + |p.avg|;
    var m := CountWidth(p) + |p.avg| + |p.max|;
    var n := CountWidth(p) + |p.avg| + |p.max| + |p.min|;
    Sections(OutputColumns(p), cnt, avg, max, min, sum, c, a, m, n);
  }

  /** The number of output columns before the first AVG line. */
  function CountWidth(p: AggregatePlan): nat
  {
    if p.count then 1 else 0
  }

  /** A sequence made of five parts, cut at the part boundaries. */
  lemma Sections<T>(o: seq<T>, s1: seq<T>, s2: seq<T>, s3: seq<T>, s4: seq<T>, s5: seq<T>, c: nat, a: nat, m: nat, n: nat)
    requires o == s1 + s2 + s3 + s4 + s5
    requires c == |s1| && a == c + |s2| && m == a + |s3| && n == m + |s4|
    ensures |o| == n + |s5| && o[..c] == s1 && o[c..a] == s2 && o[a..m] == s3 && o[m..n] == s4 && o[n..] == s5
  {
    var p2 := s1 + s2;
    var p3 := p2 + s3;
    var p4 := p3 + s4;
    Segment(o, p4, s5, |o|);
    Segment(o, p3, s4, |p4|);
    Segment(o, p2, s3, |p3|);
    Segment(o, s1, s2, |p2|);
  }

  /** Everything before ` AS ` in an aggregate line is the function applied to the bare
      column: the column's own alias never appears inside the parentheses. */
  lemma AggregateLineShape(fn: string, c: ColumnRef, alias: Option<string>)
    ensures var head := "\t" + fn + "(" + BareColumn(c) + ") AS ";
      StartsWith(AggregateLine(fn, c), head)
      && StartsWith(AggregateLine(fn, c.(alias := alias)), head)
      && BareColumn(c) == SourcePrefix(c.source) + Bracket(c.name)
  {
    var head := "\t" + fn + "(" + BareColumn(c) + ") AS ";
    assert BareColumn(c.(alias := alias)) == BareColumn(c);
    StartsWithSelf(head, Bracket(if c.alias.Some? then c.alias.value else "undefined"));
    StartsWithSelf(head, Bracket(if alias.Some? then alias.value else "undefined"));
  }

  /** `toSql` throws `Required from` only for a `from` that was set to `null`; a `from`
      that was never set crashes in the accessor renderer instead; a WHERE subtree
      throws; anything else renders. */
  lemma AggregateErrors(p: AggregatePlan)
    ensures AggregateSql(p).Err? <==> !p.from.Assigned? || HasSubtree(p.where)
    ensures AggregateSql(p) == Err(Raised(RequiredFrom)) <==> p.from.NullFrom?
    ensures p.from.Unassigned? ==> AggregateSql(p).Err? && AggregateSql(p).error.TypeError?
    ensures p.from.Assigned? && HasSubtree(p.where) ==> AggregateSql(p) == Err(Raised(SubtreeConditions))
  {
  }

  /** The first output column opens with a tab and the initial of its function. */
  lemma FirstOutput(p: AggregatePlan)
    requires |OutputColumns(p)| > 0
    ensures var l := OutputColumns(p)[0]; |l| >= 2 && l[0] == '\t' && l[1] in {'C', 'A', 'M', 'S'}
  {
    var l := OutputColumns(p)[0];
    if p.count {
      assert l == CountLine;
    } else {
      var fn, c := FirstAggregate(p);
      AggregateLineShape(fn, c, c.alias);
      FirstTwo(l, "\t" + fn + "(" + BareColumn(c) + ") AS ");
      assert fn[0] in {'A', 'M', 'S'};
    }
  }

  /** Without the count, the first output column is the first entry of the first
      non-empty list, under that list's function. */
  lemma FirstAggregate(p: AggregatePlan) returns (fn: string, c: ColumnRef)
    requires !p.count && |OutputColumns(p)| > 0
    ensures fn in {"AVG", "MAX", "MIN", "SUM"} && OutputColumns(p)[0] == AggregateLine(fn, c)
  {
    var avg, max := AggregateLines("AVG", p.avg), AggregateLines("MAX", p.max);
    var min, sum := AggregateLines("MIN", p.min), AggregateLines("SUM", p.sum);
    var o := OutputColumns(p);
    assert o == [] + avg + max + min + sum;
    if |p.avg| > 0 {
      fn, c := "AVG", p.avg[0];
      assert o[0] == avg[0];
    } else if |p.max| > 0 {
      fn, c := "MAX", p.max[0];
      assert o[0] == max[0];
    } else if |p.min| > 0 {
      fn, c := "MIN", p.min[0];
      assert o[0] == min[0];
    } else {
      fn, c := "SUM", p.sum[0];
      assert o[0] == sum[0];
    }
  }

  /** The first characters of the output column chunk: empty, or a tab and the initial
      of the first function. */
  lemma OutputChunkHead(p: AggregatePlan)
    ensures var s := Join(OutputColumns(p), ",\n");
      |s| == 0 || (|s| >= 2 && s[0] == '\t' && s[1] in {'C', 'A', 'M', 'S'})
  {
    var o := OutputColumns(p);
    if |o| > 0 {
      FirstOutput(p);
      var head := o[0][..2];
      assert StartsWith(o[0], head);
      JoinHead(o, ",\n", head);
      FirstTwo(Join(o, ",\n"), head);
    }
  }

  function Lines(p: AggregatePlan): seq<string>
    requires AggregateLinesOf(p).Ok?
  {
    AggregateLinesOf(p).value
  }

  /** The first two lines of a statement that opens with `SELECT` and an optional TOP. */
  lemma Front(top: seq<string>, cols: string, from: string, where: seq<string>, order: seq<string>)
    requires |top| <= 1
    ensures var l := ["SELECT"] + top + [cols] + [from] + where + order;
      |l| >= 3 && l[0] == "SELECT" && l[1] == (if top == [] then cols else top[0])
  {
  }

  /** `TOP n` is the second line exactly when skip is undefined and take is defined. */
  lemma AggregateTop(p: AggregatePlan)
    requires AggregateLinesOf(p).Ok?
    ensures |Lines(p)| >= 3 && Lines(p)[0] == "SELECT"
    ensures HasTop(Paging(p)) ==> Lines(p)[1] == "\tTOP " + JsString(p.take)
    ensures StartsWith(Lines(p)[1], "\tTOP ") <==> p.skip.Undefined? && !p.take.Undefined?
  {
    var v := Paging(p);
    var cols := Join(OutputColumns(p), ",\n");
    Front(TopChunks(v), cols, "FROM " + TableAccessorSql(p.from.accessor), WhereChunks(v), OrderChunks(v));
    if HasTop(v) {
      StartsWithSelf("\tTOP ", JsString(p.take));
    } else {
      OutputChunkHead(p);
      if StartsWith(cols, "\tTOP ") {
        FirstTwo(cols, "\tTOP ");
      }
    }
  }

  /** The lines before ORDER BY. */
  function HeadLines(p: AggregatePlan): seq<string>
    requires p.from.Assigned?
  {
    ["SELECT"] + TopChunks(Paging(p)) + [Join(OutputColumns(p), ",\n")]
      + ["FROM " + TableAccessorSql(p.from.accessor)] + WhereChunks(Paging(p))
  }

  lemma LinesSplit(p: AggregatePlan)
    requires AggregateLinesOf(p).Ok?
    ensures Lines(p) == HeadLines(p) + OrderChunks(Paging(p))
  {
  }

  /** A line that opens none of the paging clauses: empty, or starting with a tab, `S`,
      `W` or `FR`. */
  predicate Plain(l: string)
  {
    |l| == 0 || l[0] == '\t' || l[0] == 'S' || l[0] == 'W' || (|l| >= 2 && l[0] == 'F' && l[1] == 'R')
  }

  lemma PlainOpensNothing(l: string)
    requires Plain(l)
    ensures !StartsWith(l, "ORDER BY ") && !StartsWith(l, "OFFSET ") && !StartsWith(l, "FETCH NEXT ")
    ensures !StartsWith(l, "INNER JOIN ") && !StartsWith(l, "LEFT JOIN ") && !StartsWith(l, "INTO ")
  {
    if StartsWith(l, "ORDER BY ") { FirstTwo(l, "ORDER BY "); }
    if StartsWith(l, "OFFSET ") { FirstTwo(l, "OFFSET "); }
    if StartsWith(l, "FETCH NEXT ") { FirstTwo(l, "FETCH NEXT "); }
    if StartsWith(l, "INNER JOIN ") { FirstTwo(l, "INNER JOIN "); }
    if StartsWith(l, "LEFT JOIN ") { FirstTwo(l, "LEFT JOIN "); }
    if StartsWith(l, "INTO ") { FirstTwo(l, "INTO "); }
  }

  /** Lines that open no clause of a kind leave the question to the lines after them. */
  lemma OpenedAfter(h: seq<string>, o: seq<string>, prefix: string)
    requires forall l :: l in h ==> !StartsWith(l, prefix)
    ensures (exists l :: l in h + o && StartsWith(l, prefix)) <==> (exists l :: l in o && StartsWith(l, prefix))
  {
  }

  predicate AllPlain(ls: seq<string>)
  {
    forall l :: l in ls ==> Plain(l)
  }

  lemma PlainConcat(a: seq<string>, b: seq<string>)
    requires AllPlain(a) && AllPlain(b)
    ensures AllPlain(a + b)
  {
  }

  /** Every line before ORDER BY is plain. */
  lemma HeadLinesStart(p: AggregatePlan)
    requires p.from.Assigned?
    ensures AllPlain(HeadLines(p))
  {
    var v := Paging(p);
    var top := TopChunks(v);
    var cols := Join(OutputColumns(p), ",\n");
    var from := "FROM " + TableAccessorSql(p.from.accessor);
    var where := WhereChunks(v);
    OutputChunkHead(p);
    assert AllPlain([cols]);
    StartsWithSelf("FROM ", TableAccessorSql(p.from.accessor));
    FirstTwo(from, "FROM ");
    assert AllPlain([from]);
    if HasTop(v) {
      assert ("\tTOP " + JsString(p.take))[0] == '\t';
    }
    assert AllPlain(top);
    WhereLinesTab(p.where);
    assert AllPlain(where);
    PlainConcat(["SELECT"], top);
    PlainConcat(["SELECT"] + top, [cols]);
    PlainConcat(["SELECT"] + top + [cols], [from]);
    PlainConcat(["SELECT"] + top + [cols] + [from], where);
  }

  lemma {:induction false} WhereLinesTab(where: seq<Condition>)
    ensures forall l :: l in WhereLines(where) ==> |l| > 0 && l[0] == '\t'
    decreases |where|
  {
    if where != [] {
      WhereLinesTab(where[..|where| - 1]);
    }
  }

  /** ORDER BY, OFFSET and FETCH follow the find statement's rules: ORDER BY exactly
      when there is an order, OFFSET when there is also a skip, FETCH NEXT when there is
      also a take; a skip without an order is dropped. */
  lemma AggregatePaging(p: AggregatePlan)
    requires AggregateLinesOf(p).Ok?
    ensures (exists l :: l in Lines(p) && StartsWith(l, "ORDER BY ")) <==> |p.orderBy| > 0
    ensures (exists l :: l in Lines(p) && StartsWith(l, "OFFSET ")) <==>
      |p.orderBy| > 0 && !p.skip.Undefined?
    ensures (exists l :: l in Lines(p) && StartsWith(l, "FETCH NEXT ")) <==>
      |p.orderBy| > 0 && !p.skip.Undefined? && !p.take.Undefined?
  {
    var h := HeadLines(p);
    var o := OrderChunks(Paging(p));
    LinesSplit(p);
    HeadLinesStart(p);
    forall l | l in h
      ensures !StartsWith(l, "ORDER BY ") && !StartsWith(l, "OFFSET ") && !StartsWith(l, "FETCH NEXT ")
    {
      assert Plain(l);
      PlainOpensNothing(l);
    }
    OpenedAfter(h, o, "ORDER BY ");
    OpenedAfter(h, o, "OFFSET ");
    OpenedAfter(h, o, "FETCH NEXT ");
    OrderLines(Paging(p));
  }

  /** Plain lines followed by paging lines open no join and no INTO. */
  lemma NoJoinLines(h: seq<string>, o: seq<string>)
    requires AllPlain(h)
    requires forall l :: l in o ==> |l| >= 2 && (l[0] == 'O' || (l[0] == 'F' && l[1] == 'E'))
    ensures forall l :: l in h + o ==>
      !StartsWith(l, "INNER JOIN ") && !StartsWith(l, "LEFT JOIN ") && !StartsWith(l, "INTO ")
  {
    forall l | l in h + o
      ensures !StartsWith(l, "INNER JOIN ") && !StartsWith(l, "LEFT JOIN ") && !StartsWith(l, "INTO ")
    {
      if l in h {
        PlainOpensNothing(l);
      } else {
        if StartsWith(l, "INNER JOIN ") { FirstTwo(l, "INNER JOIN "); }
        if StartsWith(l, "LEFT JOIN ") { FirstTwo(l, "LEFT JOIN "); }
        if StartsWith(l, "INTO ") { FirstTwo(l, "INTO "); }
      }
    }
  }

  /** A single table: no line opens a join or an INTO. */
  lemma NoJoins(p: AggregatePlan)
    requires AggregateLinesOf(p).Ok?
    ensures forall l :: l in Lines(p) ==>
      !StartsWith(l, "INNER JOIN ") && !StartsWith(l, "LEFT JOIN ") && !StartsWith(l, "INTO ")
  {
    LinesSplit(p);
    HeadLinesStart(p);
    OrderLinesStart(Paging(p));
    NoJoinLines(HeadLines(p), OrderChunks(Paging(p)));
  }

  /** ORDER BY, OFFSET and FETCH lines start with `O` or `F`. */
  lemma OrderLinesStart(p: FindPlan)
    ensures forall l :: l in OrderChunks(p) ==> |l| >= 2 && (l[0] == 'O' || (l[0] == 'F' && l[1] == 'E'))
  {
  }
}
