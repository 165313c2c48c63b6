/** The printer of `query-print.ts` (`QueryContextPrinter.print`): one template literal that lays a
    query context out as a SELECT statement, with duplicate columns and joins dropped
    (`[...new Set(xs)]`) and the result trimmed of surrounding white space. */
module QueryPrint {
  import opened Js
  import opened CriteriaBuilder

  /** The characters `String.prototype.trim` removes: white space and line terminators. */
  predicate IsSpace(c: char)
  {
    c == ' ' || c == '\t' || c == '\n' || c == '\r' || c == '\U{000B}' || c == '\U{000C}'
    || c == '\U{00A0}' || c == '\U{1680}' || ('\U{2000}' <= c <= '\U{200A}')
    || c == '\U{2028}' || c == '\U{2029}' || c == '\U{202F}' || c == '\U{205F}'
    || c == '\U{3000}' || c == '\U{FEFF}'
  }

  /** `s.trimStart()`: the longest suffix that does not start with white space. */
  function TrimStart(s: string): (r: string)
    ensures |r| <= |s| && r == s[|s| - |r|..]
    ensures forall i :: 0 <= i < |s| - |r| ==> IsSpace(s[i])
    ensures r == [] || !IsSpace(r[0])
  {
    if |s| > 0 && IsSpace(s[0]) then TrimStart(s[1..]) else s
  }

  /** `s.trimEnd()`: the longest prefix that does not end with white space. */
  function TrimEnd(s: string): (r: string)
    ensures |r| <= |s| && r == s[..|r|]
    ensures forall i :: |r| <= i < |s| ==> IsSpace(s[i])
    ensures r == [] || !IsSpace(r[|r| - 1])
  {
    if |s| > 0 && IsSpace(s[|s| - 1]) then TrimEnd(s[..|s| - 1]) else s
  }

  /** `s.trim()`: neither end of the result is white space. */
  function Trim(s: string): (r: string)
    ensures |r| <= |s|
    ensures r == [] || (!IsSpace(r[0]) && !IsSpace(r[|r| - 1]))
  {
    TrimEnd(TrimStart(s))
  }

  /** `[...new Set(xs)]`: the distinct items in the order they first appear. */
  function Distinct(xs: seq<string>): (r: seq<string>)
    ensures |r| <= |xs|
    ensures forall x :: x in r <==> x in xs
    ensures NoDuplicates(r)
  {
    if xs == [] then []
    else
      var init := xs[..|xs| - 1];
      var d := Distinct(init);
      assert forall x :: x in xs <==> x in init || x == xs[|xs| - 1];
      if xs[|xs| - 1] in init then d else d + [xs[|xs| - 1]]
  }

  predicate NoDuplicates(xs: seq<string>)
  {
    forall i, j :: 0 <= i < j < |xs| ==> xs[i] != xs[j]
  }

  /** `columns.map(x => `\t${x}`)` */
  function Tabbed(columns: seq<string>): (r: seq<string>)
    ensures |r| == |columns| && forall i :: 0 <= i < |r| ==> r[i] == "\t" + columns[i]
  {
    if columns == [] then [] else Tabbed(columns[..|columns| - 1]) + ["\t" + columns[|columns| - 1]]
  }

  /** The ten lines of the template between its opening and closing line breaks. */
  function Lines(ctx: QueryContext): (r: seq<string>)
    ensures |r| == 10
  {
    [ "SELECT " + (if Truthy(ctx.top) then "TOP " + JsString(ctx.top) else ""),
      Join(Tabbed(Distinct(ctx.columns)), ",\n"),
      if Present(ctx.into) then "INTO #" + ctx.into.value else "",
      "FROM " + ctx.from,
      Join(Distinct(ctx.joins), "\n"),
      if |ctx.wheres| > 0 then "WHERE " + Join(ctx.wheres, " AND ") else "",
      if ctx.orderBy != "" then "ORDER BY " + ctx.orderBy else "",
      if ctx.orderBy != "" && ctx.fetch != Undefined && ctx.offset != Undefined
      then "OFFSET " + JsString(ctx.offset) + " ROWS FETCH NEXT " + JsString(ctx.fetch) + " ROWS ONLY"
      else "",
      "",
      if Present(ctx.into) then "SELECT * FROM #" + ctx.into.value else "" ]
  }

  /** The template literal before trimming. */
  function Template(ctx: QueryContext): (r: string)
    ensures StartsWith(r, "\nSELECT")
  {
    var body := Join(Lines(ctx), "\n");
    JoinHead(Lines(ctx), "\n", "SELECT");
    assert ("\n" + body + "\n")[..7] == "\n" + body[..6];
    "\n" + body + "\n"
  }

  /** Trimming a text that opens with a line break and then `SELECT` leaves the `SELECT`
      at its head. */
  lemma TrimAfterBreak(t: string)
    requires StartsWith(t, "\nSELECT")
    ensures StartsWith(Trim(t), "SELECT")
  {
    assert IsSpace(t[0]) && !IsSpace(t[1]);
    assert TrimStart(t) == TrimStart(t[1..]) == t[1..];
    var s := t[1..];
    assert s[..6] == "SELECT";
    assert !IsSpace(s[5]);
    var r := TrimEnd(s);
    assert r[..6] == s[..6];
  }

  /** `QueryContextPrinter.print`: the trimmed template, which opens with `SELECT`. */
  function Print(ctx: QueryContext): (r: string)
    ensures StartsWith(r, "SELECT") && !IsSpace(r[|r| - 1])
  {
    TrimAfterBreak(Template(ctx));
    Trim(Template(ctx))
  }
}
