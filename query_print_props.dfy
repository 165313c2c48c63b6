/** What the older printer promises: duplicates go and first occurrences keep their
    order, `TOP` only for a truthy limit, `INTO` paired with the trailing re-select,
    `WHERE` and `OFFSET` only when there is something to say, and a trimmed result. */
module QueryPrintProps {
  import opened Js
  import opened CriteriaBuilder
  import opened QueryPrint

  /** The position of the first occurrence of `x`. */
  function FirstIndex(xs: seq<string>, x: string): (k: nat)
    requires x in xs
    ensures k < |xs| && xs[k] == x && forall i :: 0 <= i < k ==> xs[i] != x
  {
    if xs[0] == x then 0 else 1 + FirstIndex(xs[1..], x)
  }

  lemma FirstIndexPrefix(xs: seq<string>, n: nat, x: string)
    requires n <= |xs| && x in xs[..n]
    ensures x in xs && FirstIndex(xs, x) == FirstIndex(xs[..n], x)
  {
    var k := FirstIndex(xs[..n], x);
    assert xs[k] == x;
    var m := FirstIndex(xs, x);
    assert m <= k;
    assert xs[..n][m] == x;
  }

  /** Items already distinct come back unchanged. */
  lemma {:induction false} DistinctKeepsDistinct(xs: seq<string>)
    requires NoDuplicates(xs)
    ensures Distinct(xs) == xs
  {
    if xs != [] {
      var init := xs[..|xs| - 1];
      assert NoDuplicates(init);
      DistinctKeepsDistinct(init);
      assert xs[|xs| - 1] !in init;
      assert init + [xs[|xs| - 1]] == xs;
    }
  }

  /** De-duplicating twice changes nothing more. */
  lemma DistinctIdempotent(xs: seq<string>)
    ensures Distinct(Distinct(xs)) == Distinct(xs)
  {
    DistinctKeepsDistinct(Distinct(xs));
  }

  /** The kept items follow the order of their first occurrences. */
  lemma {:induction false} DistinctFirstOrder(xs: seq<string>, i: nat, j: nat)
    requires i < j < |Distinct(xs)|
    ensures FirstIndex(xs, Distinct(xs)[i]) < FirstIndex(xs, Distinct(xs)[j])
  {
    var init := xs[..|xs| - 1];
    var last := xs[|xs| - 1];
    var d := Distinct(init);
    var r := Distinct(xs);
    if last in init {
      assert r == d;
      DistinctFirstOrder(init, i, j);
      OrderThroughPrefix(xs, |xs| - 1, d[i], d[j]);
    } else {
      assert r == d + [last];
      assert r[i] == d[i];
      if j < |d| {
        DistinctFirstOrder(init, i, j);
        assert r[j] == d[j];
        OrderThroughPrefix(xs, |xs| - 1, d[i], d[j]);
      } else {
        assert r[j] == last;
        BeforeLast(xs, d[i]);
      }
    }
  }

  /** First occurrences inside the prefix without the last item keep their order. */
  lemma OrderThroughPrefix(xs: seq<string>, n: nat, a: string, b: string)
    requires n <= |xs| && a in xs[..n] && b in xs[..n]
    requires FirstIndex(xs[..n], a) < FirstIndex(xs[..n], b)
    ensures a in xs && b in xs && FirstIndex(xs, a) < FirstIndex(xs, b)
  {
    FirstIndexPrefix(xs, n, a);
    FirstIndexPrefix(xs, n, b);
  }

  /** An item of the prefix occurs first before a last item that is new. */
  lemma BeforeLast(xs: seq<string>, a: string)
    requires xs != [] && a in xs[..|xs| - 1] && xs[|xs| - 1] !in xs[..|xs| - 1]
    ensures FirstIndex(xs, a) < FirstIndex(xs, xs[|xs| - 1])
  {
    FirstIndexPrefix(xs, |xs| - 1, a);
    forall i | 0 <= i < |xs| - 1
      ensures xs[i] != xs[|xs| - 1]
    {
      assert xs[..|xs| - 1][i] == xs[i];
    }
  }

  /** A text with no white space at either end is its own trim. */
  lemma TrimKeepsTrimmed(s: string)
    requires s == [] || (!IsSpace(s[0]) && !IsSpace(s[|s| - 1]))
    ensures Trim(s) == s
  {
  }

  /** Trimming cuts only white space, and only at the two ends. */
  lemma TrimCuts(s: string)
    ensures var a := |s| - |TrimStart(s)|;
            var r := Trim(s);
            a + |r| <= |s| && s[a..a + |r|] == r
            && (forall i :: 0 <= i < a ==> IsSpace(s[i]))
            && (forall i :: a + |r| <= i < |s| ==> IsSpace(s[i]))
  {
    var t := TrimStart(s);
    CutEnd(s, |s| - |t|, t, Trim(s));
  }

  /** What the end trim cuts from the suffix `t` of `s` is the end of `s`. */
  lemma CutEnd(s: string, a: nat, t: string, r: string)
    requires a + |t| == |s| && t == s[a..] && r == TrimEnd(t)
    ensures a + |r| <= |s| && s[a..a + |r|] == r
    ensures forall i :: a + |r| <= i < |s| ==> IsSpace(s[i])
  {
    forall i | a + |r| <= i < |s|
      ensures IsSpace(s[i])
    {
      assert s[i] == t[i - a];
    }
  }

  /** `TOP n` appears exactly when the limit is truthy. */
  lemma TopLine(ctx: QueryContext)
    ensures Lines(ctx)[0] == "SELECT " <==> !Truthy(ctx.top)
    ensures Truthy(ctx.top) ==> Lines(ctx)[0] == "SELECT TOP " + JsString(ctx.top)
  {
  }

  /** The column lines list every column once, tab-indented, in first-occurrence order. */
  lemma ColumnLines(ctx: QueryContext)
    ensures exists items ::
              Lines(ctx)[1] == Join(items, ",\n") && NoTabbedDuplicates(items)
              && (forall x :: x in items <==> exists c :: c in ctx.columns && x == "\t" + c)
  {
    var items := Tabbed(Distinct(ctx.columns));
    var d := Distinct(ctx.columns);
    forall x | x in items
      ensures exists c :: c in ctx.columns && x == "\t" + c
    {
      var k :| 0 <= k < |items| && items[k] == x;
      assert d[k] in ctx.columns;
    }
    forall x | exists c :: c in ctx.columns && x == "\t" + c
      ensures x in items
    {
      var c :| c in ctx.columns && x == "\t" + c;
      var k :| 0 <= k < |d| && d[k] == c;
      assert items[k] == x;
    }
    forall i, j | 0 <= i < j < |items|
      ensures items[i] != items[j]
    {
      assert items[i][1..] == d[i];
      assert items[j][1..] == d[j];
    }
    assert Lines(ctx)[1] == Join(items, ",\n") && NoTabbedDuplicates(items);
  }

  predicate NoTabbedDuplicates(items: seq<string>)
  {
    forall i, j :: 0 <= i < j < |items| ==> items[i] != items[j]
  }

  /** `INTO #t` and the trailing `SELECT * FROM #t` appear together or not at all. */
  lemma IntoPaired(ctx: QueryContext)
    ensures Lines(ctx)[2] == "" <==> Lines(ctx)[9] == ""
    ensures Lines(ctx)[2] == "" <==> !Present(ctx.into)
    ensures Present(ctx.into) ==> Lines(ctx)[2] == "INTO #" + ctx.into.value && Lines(ctx)[9] == "SELECT * FROM #" + ctx.into.value
  {
  }

  /** `WHERE` appears exactly when there are conditions, all joined by `AND`. */
  lemma WhereLine(ctx: QueryContext)
    ensures Lines(ctx)[5] == "" <==> ctx.wheres == []
    ensures ctx.wheres != [] ==> Lines(ctx)[5] == "WHERE " + Join(ctx.wheres, " AND ")
  {
  }

  /** `OFFSET … FETCH` needs an ordering and both paging values defined. */
  lemma OffsetNeedsOrder(ctx: QueryContext)
    ensures Lines(ctx)[7] != "" <==> Lines(ctx)[6] != "" && ctx.offset != Undefined && ctx.fetch != Undefined
    ensures Lines(ctx)[6] != "" <==> ctx.orderBy != ""
  {
  }

  /** The last part joined follows the separator after the others. */
  lemma {:induction false} JoinLast(parts: seq<string>, sep: string)
    requires |parts| >= 2
    ensures Join(parts, sep) == Join(parts[..|parts| - 1], sep) + sep + parts[|parts| - 1]
  {
    if |parts| > 2 {
      JoinLast(parts[1..], sep);
      assert parts[1..][..|parts| - 2] == parts[..|parts| - 1][1..];
    }
  }

  /** Ten lines whose ninth is blank end with a blank line and the tenth. */
  lemma JoinBlankTail(lines: seq<string>)
    requires |lines| == 10 && lines[8] == ""
    ensures Join(lines, "\n") == Join(lines[..8], "\n") + "\n\n" + lines[9]
  {
    JoinLast(lines, "\n");
    JoinLast(lines[..9], "\n");
    assert lines[..9][..8] == lines[..8];
  }

  /** Trimming a text laid out as the template is cuts the opening and closing line
      breaks and nothing else when the last line ends in a visible character. */
  lemma TrimFramed(front: string, tail: string)
    requires StartsWith(front, "SELECT") && |tail| > 0 && !IsSpace(tail[|tail| - 1])
    ensures EndsWith(Trim("\n" + front + "\n\n" + tail + "\n"), "\n\n" + tail)
  {
    var body := front + ("\n\n" + tail);
    assert "\n" + front + "\n\n" + tail + "\n" == "\n" + body + "\n";
    assert body[0] == front[0] == 'S';
    assert body[|body| - 1] == tail[|tail| - 1];
    TrimNewlines(body);
    EndsWithSelf(front, "\n\n" + tail);
  }

  /** One newline on each side of a text that is already trimmed goes. */
  lemma TrimNewlines(body: string)
    requires |body| > 0 && !IsSpace(body[0]) && !IsSpace(body[|body| - 1])
    ensures Trim("\n" + body + "\n") == body
  {
    var t := "\n" + body + "\n";
    assert t[1..] == body + "\n";
    assert TrimStart(t) == TrimStart(t[1..]) == body + "\n";
    assert (body + "\n")[..|body|] == body;
    assert TrimEnd(body + "\n") == TrimEnd(body) == body;
  }

  /** With a temporary table, the printed text ends with a blank line and the
      re-select from it (a table name ending in white space would lose that white
      space to the trim). */
  lemma IntoTail(ctx: QueryContext)
    requires Present(ctx.into) && !IsSpace(ctx.into.value[|ctx.into.value| - 1])
    ensures EndsWith(Print(ctx), "\n\nSELECT * FROM #" + ctx.into.value)
  {
    var lines := Lines(ctx);
    var tail := "SELECT * FROM #" + ctx.into.value;
    JoinBlankTail(lines);
    JoinHead(lines[..8], "\n", "SELECT");
    var front := Join(lines[..8], "\n");
    assert Template(ctx) == "\n" + Join(lines, "\n") + "\n";
    assert Template(ctx) == "\n" + front + "\n\n" + tail + "\n";
    TrimFramed(front, tail);
    assert Print(ctx) == Trim("\n" + front + "\n\n" + tail + "\n");
    TailText(ctx.into.value);
  }

  lemma TailText(table: string)
    ensures "\n\n" + ("SELECT * FROM #" + table) == "\n\nSELECT * FROM #" + table
  {
  }
}
