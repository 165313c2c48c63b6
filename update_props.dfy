/** What the update renderer promises: how values become SQL literals, one SET item
    per assigned property in order, and where the DECLARE, UPDATE, SET, OUTPUT, WHERE
    and read-back sections sit in the statement. */
module UpdateProps {
  import opened Js
  import opened Schema
  import opened FindContext
  import opened WhereBuilder
  import opened DeleteContext
  import opened UpdateContext

  // ---------------------------------------------------------------- literals

  /** Reading a quoted literal back: every doubled quote stands for one quote. */
  function Undouble(s: string): string
  {
    if s == [] then []
    else if |s| >= 2 && s[0] == '\'' && s[1] == '\'' then "'" + Undouble(s[2..])
    else [s[0]] + Undouble(s[1..])
  }

  /** Doubling every quote is undone by reading the literal back. */
  lemma {:induction false} UndoubleDoubled(s: string)
    ensures Undouble(ReplaceAll(s, '\'', "''")) == s
  {
    if s != [] {
      var rest := ReplaceAll(s[1..], '\'', "''");
      var t := ReplaceAll(s, '\'', "''");
      UndoubleDoubled(s[1..]);
      if s[0] == '\'' {
        assert t == "''" + rest;
        assert t[2..] == rest;
        assert s == "'" + s[1..];
      } else {
        assert t == [s[0]] + rest;
        assert t[1..] == rest;
        assert s == [s[0]] + s[1..];
      }
    }
  }

  /** A string becomes a literal between single quotes whose body reads back as the
      string and holds twice as many quotes: every quote is doubled, not only the
      first. */
  lemma StringLiteral(s: string)
    ensures SqlValue(Str(s)).Str?
    ensures var t := SqlValue(Str(s)).s;
      |t| >= 2 && t[0] == '\'' && t[|t| - 1] == '\''
      && Undouble(t[1..|t| - 1]) == s
      && Count(t[1..|t| - 1], '\'') == 2 * Count(s, '\'')
  {
    var body := ReplaceAll(s, '\'', "''");
    var t := "'" + body + "'";
    assert SqlValue(Str(s)).s == t;
    assert t[1..|t| - 1] == body;
    UndoubleDoubled(s);
    ReplaceAllCount(s);
  }

  /** Distinct strings give distinct literals. */
  lemma StringLiteralInjective(a: string, b: string)
    requires SqlValue(Str(a)) == SqlValue(Str(b))
    ensures a == b
  {
    StringLiteral(a);
    StringLiteral(b);
  }

  /** Numbers pass through, dates become their quoted ISO text, strings become
      string literals, and every other value becomes `undefined`, which the SET
      item then prints as the word `undefined`. */
  lemma SqlValueKinds(v: Value)
    ensures SqlValue(v).Num? <==> v.Num?
    ensures v.Num? ==> SqlValue(v) == v && JsString(SqlValue(v)) == IntToString(v.n)
    ensures v.Date? ==> SqlValue(v) == Str("'" + v.iso + "'")
    ensures SqlValue(v).Str? <==> v.Str? || v.Date?
    ensures SqlValue(v) == Undefined <==> !(v.Num? || v.Str? || v.Date?)
    ensures SqlValue(v) == Undefined ==> JsString(SqlValue(v)) == "undefined"
  {
  }

  // ---------------------------------------------------------------- the SET list

  /** One SET item per assigned property, in the object's order, each naming the
      property and its own value. */
  lemma SetItemsInOrder(assignments: Fields)
    requires DistinctKeys(assignments)
    ensures |SetLines(assignments)| == |assignments|
    ensures forall k :: 0 <= k < |assignments| ==>
      SetLines(assignments)[k] == "\t" + Bracket(assignments[k].0) + " = " + JsString(SqlValue(assignments[k].1))
  {
    forall k | 0 <= k < |assignments|
      ensures SetLines(assignments)[k] == "\t" + Bracket(assignments[k].0) + " = " + JsString(SqlValue(assignments[k].1))
    {
      LookupAt(assignments, k);
    }
  }

  // ---------------------------------------------------------------- the statement

  /** The chunks of an update that renders. */
  function Lines(p: UpdatePlan): seq<string>
    requires UpdateLines(p).Ok?
  {
    UpdateLines(p).value
  }

  /** `toSql` throws on a context without an entity, then when the WHERE rendering
      throws (a subtree condition), then when the read-back statement throws. */
  lemma UpdateErrors(p: UpdatePlan)
    ensures p.entity.None? ==> UpdateSql(p) == Err(UndefinedEntity)
    ensures p.entity.Some? && |p.where| > 0 && ConditionsSql(p.where).Err? ==>
      UpdateSql(p) == Err(ConditionsSql(p.where).error)
    ensures p.entity.Some? && |p.where| == 0 && p.returning.Some? && FindSql(p.returning.value).Err? ==>
      UpdateSql(p) == Err(FindSql(p.returning.value).error)
    ensures UpdateSql(p).Ok? <==>
      p.entity.Some? && (|p.where| > 0 ==> ConditionsSql(p.where).Ok?)
      && (p.returning.Some? ==> FindSql(p.returning.value).Ok?)
  {
  }

  /** The chunks of an update that renders, section by section. */
  lemma LinesParts(p: UpdatePlan)
    requires UpdateLines(p).Ok?
    ensures p.entity.Some? && UpdateWhereChunks(p.where).Ok? && ReturningChunks(p.returning).Ok?
    ensures Lines(p) == DeclareChunks(p.tempTable, UpdateDeclareLines(p.pks)) + ["UPDATE " + TargetSql(p.entity.value) + " SET"]
      + [Join(SetLines(p.assignments), ",\n")] + OutputChunks(p.tempTable, p.pks)
      + UpdateWhereChunks(p.where).value + ReturningChunks(p.returning).value
  {
  }

  lemma DeclareIndices(table: string, d: seq<string>, u: string, s: string, o: seq<string>, w: seq<string>, r: seq<string>)
    ensures var l := ["DECLARE " + table + " AS TABLE("] + d + [")", ""] + [u] + [s] + o + w + r;
      |l| > |d| + 4 && l[0] == "DECLARE " + table + " AS TABLE(" && l[|d| + 1] == ")" && l[|d| + 2] == ""
      && l[|d| + 3] == u
      && forall k :: 0 <= k < |d| ==> l[1 + k] == d[k]
  {
  }

  /** With a staging table the statement opens with its DECLARE block: one line per
      primary key column named by the field's accessor name, a closing parenthesis
      and a blank line, then the UPDATE line. */
  lemma DeclareBlock(p: UpdatePlan)
    requires UpdateLines(p).Ok? && Present(p.tempTable)
    ensures var l, n := Lines(p), |p.pks|;
      |l| > n + 4
      && l[0] == "DECLARE " + p.tempTable.value + " AS TABLE("
      && (forall k :: 0 <= k < n ==> l[1 + k] == DeclareLine(p.pks[k].info.accessorName, p.pks[k]))
      && l[n + 1] == ")" && l[n + 2] == ""
      && l[n + 3] == "UPDATE " + TargetSql(p.entity.value) + " SET"
  {
    LinesParts(p);
    DeclareIndices(p.tempTable.value, UpdateDeclareLines(p.pks), "UPDATE " + TargetSql(p.entity.value) + " SET",
                   Join(SetLines(p.assignments), ",\n"), OutputChunks(p.tempTable, p.pks),
                   UpdateWhereChunks(p.where).value, ReturningChunks(p.returning).value);
  }

  /** Dropping the first section of six. */
  lemma DropFirst<T>(d: seq<T>, u: T, s: T, o: seq<T>, w: seq<T>, r: seq<T>)
    ensures (d + [u] + [s] + o + w + r)[|d|..] == [u, s] + o + w + r
  {
  }

  /** The sections that follow the DECLARE block, one after another. */
  lemma UpdateParts(p: UpdatePlan)
    requires UpdateLines(p).Ok?
    ensures var d := if Present(p.tempTable) then |p.pks| + 3 else 0;
      Lines(p)[d..] == ["UPDATE " + TargetSql(p.entity.value) + " SET", Join(SetLines(p.assignments), ",\n")]
        + OutputChunks(p.tempTable, p.pks) + UpdateWhereChunks(p.where).value + ReturningChunks(p.returning).value
  {
    LinesParts(p);
    var dc := DeclareChunks(p.tempTable, UpdateDeclareLines(p.pks));
    assert |dc| == if Present(p.tempTable) then |p.pks| + 3 else 0;
    DropFirst(dc, "UPDATE " + TargetSql(p.entity.value) + " SET", Join(SetLines(p.assignments), ",\n"),
              OutputChunks(p.tempTable, p.pks), UpdateWhereChunks(p.where).value, ReturningChunks(p.returning).value);
  }

  /** The UPDATE line is followed by the SET list; with a staging table the OUTPUT
      clause comes next, listing every primary key column, and WHERE follows it;
      without one WHERE follows the SET list directly. */
  lemma SetThenOutputThenWhere(p: UpdatePlan)
    requires UpdateLines(p).Ok?
    ensures var d := if Present(p.tempTable) then |p.pks| + 3 else 0;
      |Lines(p)| >= d + 2
      && Lines(p)[d] == "UPDATE " + TargetSql(p.entity.value) + " SET"
      && Lines(p)[d + 1] == Join(SetLines(p.assignments), ",\n")
      && (Present(p.tempTable) ==>
            |Lines(p)| >= d + 3
            && Lines(p)[d + 2] == "OUTPUT " + Join(InsertedColumns(p.pks), ",") + " INTO " + p.tempTable.value)
      && (var w := if Present(p.tempTable) then d + 3 else d + 2;
          |p.where| > 0 ==> |Lines(p)| >= w + 2 && Lines(p)[w] == "WHERE" && Lines(p)[w + 1] == ConditionsSql(p.where).value)
  {
    UpdateParts(p);
    var d := if Present(p.tempTable) then |p.pks| + 3 else 0;
    var tail := Lines(p)[d..];
    assert tail[0] == Lines(p)[d] && tail[1] == Lines(p)[d + 1];
    var w := if Present(p.tempTable) then 3 else 2;
    assert |OutputChunks(p.tempTable, p.pks)| == w - 2;
    if Present(p.tempTable) {
      assert tail[2] == Lines(p)[d + 2];
    }
    if |p.where| > 0 {
      assert UpdateWhereChunks(p.where).value == ["WHERE", ConditionsSql(p.where).value];
      assert tail[w] == Lines(p)[d + w];
      assert tail[w + 1] == Lines(p)[d + w + 1];
    }
  }

  /** The read-back statement, when there is one, is the last chunk, after a blank line;
      without it and without conditions the statement ends with the OUTPUT clause or,
      without a staging table, with the SET list. */
  lemma ReturningLast(p: UpdatePlan)
    requires UpdateLines(p).Ok?
    ensures p.returning.Some? ==>
      |Lines(p)| >= 4 && Lines(p)[|Lines(p)| - 1] == FindSql(p.returning.value).value
      && Lines(p)[|Lines(p)| - 2] == ""
    ensures p.returning.None? && |p.where| == 0 ==>
      Lines(p)[|Lines(p)| - 1] == (if Present(p.tempTable) then
        "OUTPUT " + Join(InsertedColumns(p.pks), ",") + " INTO " + p.tempTable.value
      else Join(SetLines(p.assignments), ",\n"))
  {
    UpdateParts(p);
    var d := if Present(p.tempTable) then |p.pks| + 3 else 0;
    var tail := Lines(p)[d..];
    assert tail[|tail| - 1] == Lines(p)[|Lines(p)| - 1];
    if p.returning.Some? {
      assert tail[|tail| - 2] == Lines(p)[|Lines(p)| - 2];
    }
  }
}
