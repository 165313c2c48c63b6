/** The plan node of an aggregate query (`AggregateContextQueryBuilder`) and its
    rendering: one SELECT of COUNT/AVG/MAX/MIN/SUM columns over a single table, with
    the find statement's TOP, WHERE and ORDER BY/OFFSET/FETCH rules and no joins. */
module AggregateContext {
  import opened Js
  import opened FindContext

  const CountLine := "\tCOUNT(*) AS [count]"

  /** `from` as the context holds it: never assigned (the constructor leaves it out),
      assigned `null`, or an accessor. */
  datatype FromSlot = Unassigned | NullFrom | Assigned(accessor: Accessor)

  datatype AggregatePlan = AggregatePlan(
    params: Fields,
    where: seq<Condition>,
    orderBy: seq<Order>,
    skip: Value,
    take: Value,
    from: FromSlot,
    count: bool,
    avg: seq<ColumnRef>,
    max: seq<ColumnRef>,
    min: seq<ColumnRef>,
    sum: seq<ColumnRef>)

  /** A fresh context; `count` is left undefined, which every reader treats as false. */
  const EmptyAggregate := AggregatePlan([], [], [], Undefined, Undefined, Unassigned, false, [], [], [], [])

  /** The filter and paging fields, as a find plan with nothing else, so that the find
      statement's sections render them. */
  function Paging(p: AggregatePlan): FindPlan
  {
    EmptyPlan.(where := p.where, orderBy := p.orderBy, skip := p.skip, take := p.take)
  }

  /** The aggregate's column renderer: an optional `[source].` and `[name]`; unlike the
      find renderer it never adds the alias. */
  function BareColumn(c: ColumnRef): string
  {
    SourcePrefix(c.source) + Bracket(c.name)
  }

  function AggregateLine(fn: string, c: ColumnRef): string
  {
    "\t" + fn + "(" + BareColumn(c) + ") AS " + Bracket(if c.alias.Some? then c.alias.value else "undefined")
  }

  function AggregateLines(fn: string, cols: seq<ColumnRef>): (r: seq<string>)
    ensures |r| == |cols|
    ensures forall k :: 0 <= k < |cols| ==> r[k] == AggregateLine(fn, cols[k])
  {
    if cols == [] then [] else AggregateLines(fn, cols[..|cols| - 1]) + [AggregateLine(fn, cols[|cols| - 1])]
  }

  /** The output columns: the count, then every AVG, MAX, MIN and SUM entry. */
  function OutputColumns(p: AggregatePlan): seq<string>
  {
    (if p.count then [CountLine] else [])
      + AggregateLines("AVG", p.avg) + AggregateLines("MAX", p.max)
      + AggregateLines("MIN", p.min) + AggregateLines("SUM", p.sum)
  }

  /** The chunks `toSql` joins with newlines, or the error it throws. An unassigned
      `from` passes the `null` test and crashes in the accessor renderer. */
  function AggregateLinesOf(p: AggregatePlan): Result<seq<string>>
  {
    if p.from.NullFrom? then Err(Raised(RequiredFrom))
    else if p.from.Unassigned? then Err(TypeError("Cannot read properties of undefined"))
    else if HasSubtree(p.where) then Err(Raised(SubtreeConditions))
    else
      Ok(["SELECT"] + TopChunks(Paging(p)) + [Join(OutputColumns(p), ",\n")]
         + ["FROM " + TableAccessorSql(p.from.accessor)]
         + WhereChunks(Paging(p)) + OrderChunks(Paging(p)))
  }

  function AggregateSql(p: AggregatePlan): Result<string>
  {
    var lines :- AggregateLinesOf(p);
    Ok(Join(lines, "\n"))
  }

  /** One of the four aggregate loops. */
  method AggregateSection(fn: string, cols: seq<ColumnRef>) returns (lines: seq<string>)
    ensures lines == AggregateLines(fn, cols)
  {
    lines := [];
    for i := 0 to |cols|
      invariant lines == AggregateLines(fn, cols[..i])
    {
      assert cols[..i + 1][..i] == cols[..i];
      lines := lines + [AggregateLine(fn, cols[i])];
    }
    assert cols[..|cols|] == cols;
  }

  method OutputColumnsSql(p: AggregatePlan) returns (s: string)
    ensures s == Join(OutputColumns(p), ",\n")
  {
    var outputs: seq<string> := [];
    if p.count {
      outputs := outputs + [CountLine];
    }
    assert outputs == if p.count then [CountLine] else [];
    var avg := AggregateSection("AVG", p.avg);
    var max := AggregateSection("MAX", p.max);
    var min := AggregateSection("MIN", p.min);
    var sum := AggregateSection("SUM", p.sum);
    outputs := outputs + avg + max + min + sum;
    s := Join(outputs, ",\n");
  }

  class AggregateContextQueryBuilder {
    var params: Fields
    var where: seq<Condition>
    var orderBy: seq<Order>
    var skip: Value
    var take: Value
    var from: FromSlot
    var count: bool
    var avg: seq<ColumnRef>
    var max: seq<ColumnRef>
    var min: seq<ColumnRef>
    var sum: seq<ColumnRef>

    constructor ()
      ensures Plan() == EmptyAggregate
    {
      where := [];
      params := [];
      orderBy := [];
      avg := [];
      max := [];
      min := [];
      sum := [];
      skip := Undefined;
      take := Undefined;
      from := Unassigned;
      count := false;
    }

    function Plan(): AggregatePlan
      reads this
    {
      AggregatePlan(params, where, orderBy, skip, take, from, count, avg, max, min, sum)
    }

    /** `skip` and `take`, copied from the request. */
    method SetPaging(skip: Value, take: Value)
      modifies this
      ensures Plan() == old(Plan()).(skip := skip, take := take)
    {
      this.skip := skip;
      this.take := take;
    }

    /** The filters the where builder leaves behind. */
    method SetFilters(params: Fields, where: seq<Condition>)
      modifies this
      ensures Plan() == old(Plan()).(params := params, where := where)
    {
      this.params := params;
      this.where := where;
    }

    /** The four assignments `build` ends with. */
    method SetAggregates(avg: seq<ColumnRef>, max: seq<ColumnRef>, min: seq<ColumnRef>, sum: seq<ColumnRef>)
      modifies this
      ensures Plan() == old(Plan()).(avg := avg, max := max, min := min, sum := sum)
    {
      this.avg := avg;
      this.max := max;
      this.min := min;
      this.sum := sum;
    }

    /** `toSql` */
    method ToSql() returns (r: Result<string>)
      ensures r == AggregateSql(Plan())
    {
      var p := Plan();
      if from.NullFrom? {
        return Err(Raised(RequiredFrom));
      }
      var chunks := ["SELECT"];
      if skip.Undefined? && !take.Undefined? {
        chunks := chunks + ["\tTOP " + JsString(take)];
      }
      assert chunks == ["SELECT"] + TopChunks(Paging(p));
      var columns := OutputColumnsSql(p);
      chunks := chunks + [columns];
      if from.Unassigned? {
        return Err(TypeError("Cannot read properties of undefined"));
      }
      chunks := chunks + ["FROM " + TableAccessorSql(from.accessor)];
      var whereChunks := WhereBlock(Paging(p));
      if whereChunks.Err? {
        return Err(whereChunks.error);
      }
      chunks := chunks + whereChunks.value;
      var tail := TailSection(Paging(p));
      assert tail == OrderChunks(Paging(p));
      chunks := chunks + tail;
      return Ok(Join(chunks, "\n"));
    }
  }
}
