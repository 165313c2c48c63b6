/** What the delete renderer promises: the type declarations of the staging table and
    their defaults, the target's qualification and lock hint, and where the DECLARE,
    OUTPUT, WHERE and read-back sections sit in the statement. */
module DeleteProps {
  import opened Js
  import opened Schema
  import opened FindContext
  import opened FindContextProps
  import opened DeleteContext

  // ---------------------------------------------------------------- declarations

  /** A printed number opens with a digit or a minus sign, never with `M`. */
  lemma IntToStringNotMax(n: int)
    ensures IntToString(n) != "MAX"
  {
    if n >= 0 {
      NatToStringHead(n);
    } else {
      assert IntToString(n)[0] == '-';
    }
  }

  lemma {:induction false} NatToStringHead(n: nat)
    ensures NatToString(n)[0] in "0123456789"
  {
    if n >= 10 {
      NatToStringHead(n / 10);
      assert NatToString(n)[0] == NatToString(n / 10)[0];
    }
  }

  /** A length argument is `MAX` exactly when the length is absent or above the ceiling,
      and otherwise the length itself. */
  lemma LengthArgMax(length: Option<int>, ceiling: int)
    ensures LengthArg(length, ceiling) == "MAX" <==> length.None? || length.value > ceiling
    ensures length.Some? && length.value <= ceiling ==> LengthArg(length, ceiling) == IntToString(length.value)
  {
    if length.Some? {
      IntToStringNotMax(length.value);
    }
  }

  /** Every declaration opens with the type's own declaration; a type without
      arguments is exactly that. */
  lemma DeclareHead(t: SqlType, o: ColumnOptions)
    ensures StartsWith(Declare(t, o), t.declaration)
    ensures t.kind.OtherKind? ==> Declare(t, o) == t.declaration
    ensures !t.kind.OtherKind? ==> EndsWith(Declare(t, o), ")")
  {
    var d := Declare(t, o);
    if !t.kind.OtherKind? {
      var rest := d[|t.declaration|..];
      assert d == t.declaration + rest;
      StartsWithSelf(t.declaration, rest);
      assert d == d[..|d| - 1] + ")";
      EndsWithSelf(d[..|d| - 1], ")");
    } else {
      StartsWithSelf(t.declaration, "");
    }
  }

  /** `varchar` and `varbinary` take `MAX` beyond 8000 characters or without a length,
      `nvarchar` beyond 4000; within the ceiling the length is printed. */
  lemma VariableLengths(t: SqlType, o: ColumnOptions)
    ensures t.kind.VarChar? || t.kind.VarBinary? ==>
      (Declare(t, o) == t.declaration + " (MAX)" <==> o.length.None? || o.length.value > 8000)
    ensures t.kind.NVarChar? ==>
      (Declare(t, o) == t.declaration + " (MAX)" <==> o.length.None? || o.length.value > 4000)
    ensures (t.kind.VarChar? || t.kind.VarBinary?) && o.length.Some? && o.length.value <= 8000 ==>
      Declare(t, o) == t.declaration + " (" + IntToString(o.length.value) + ")"
    ensures t.kind.NVarChar? && o.length.Some? && o.length.value <= 4000 ==>
      Declare(t, o) == t.declaration + " (" + IntToString(o.length.value) + ")"
  {
    var ceiling := if t.kind.NVarChar? then 4000 else 8000;
    LengthArgMax(o.length, ceiling);
    if t.kind.VarChar? || t.kind.VarBinary? || t.kind.NVarChar? {
      var arg := LengthArg(o.length, ceiling);
      assert Declare(t, o) == t.declaration + " (" + arg + ")";
      if Declare(t, o) == t.declaration + " (MAX)" {
        var n := |t.declaration + " ("|;
        assert arg == Declare(t, o)[n..|Declare(t, o)| - 1];
        assert "MAX" == (t.declaration + " (MAX)")[n..|Declare(t, o)| - 1];
      }
    }
  }

  /** The defaults for an absent argument: length 1 for fixed-length types, precision
      18 and scale 0 for exact numerics, scale 7 for the time types. */
  lemma DeclareDefaults(t: SqlType, o: ColumnOptions)
    ensures (t.kind.Char? || t.kind.NChar? || t.kind.Binary?) && o.length.None? ==>
      Declare(t, o) == t.declaration + " (1)"
    ensures (t.kind.Decimal? || t.kind.Numeric?) && o.precision.None? && o.scale.None? ==>
      Declare(t, o) == t.declaration + " (18, 0)"
    ensures (t.kind.Time? || t.kind.DateTime2? || t.kind.DateTimeOffset?) && o.scale.None? ==>
      Declare(t, o) == t.declaration + " (7)"
  {
    assert IntToString(1) == "1" && IntToString(7) == "7" && IntToString(0) == "0";
    assert NatToString(18) == NatToString(1) + [Digit(8)];
    assert IntToString(18) == "18";
  }

  // ---------------------------------------------------------------- the statement

  /** The target is qualified by its database, else its schema, else starts with the
      table, and always ends with the row lock hint. */
  lemma TargetShape(e: Entity)
    ensures EndsWith(TargetSql(e), Bracket(e.tableName) + " WITH(ROWLOCK)")
    ensures Present(e.database) ==> StartsWith(TargetSql(e), Bracket(e.database.value) + ".")
    ensures !Present(e.database) && Present(e.schema) ==> StartsWith(TargetSql(e), Bracket(e.schema.value) + ".")
    ensures !Present(e.database) && !Present(e.schema) ==> TargetSql(e) == Bracket(e.tableName) + " WITH(ROWLOCK)"
  {
    var db := if Present(e.database) then Bracket(e.database.value) + "." else "";
    var sc := if Present(e.schema) then Bracket(e.schema.value) + "." else "";
    var tail := Bracket(e.tableName) + " WITH(ROWLOCK)";
    assert TargetSql(e) == db + sc + tail;
    assert TargetSql(e) == db + (sc + tail);
    EndsWithSelf(db + sc, tail);
    StartsWithSelf(db, sc + tail);
    StartsWithSelf(sc, tail);
  }

  /** The chunks of a delete that renders. */
  function Lines(p: DeletePlan): seq<string>
    requires DeleteLines(p).Ok?
  {
    DeleteLines(p).value
  }

  /** `toSql` throws on a context without an entity, on a WHERE subtree and when the
      read-back statement throws, in that order; otherwise it renders. */
  lemma DeleteErrors(p: DeletePlan)
    ensures p.entity.None? ==> DeleteSql(p) == Err(UndefinedEntity)
    ensures p.entity.Some? && HasSubtree(p.where) ==> DeleteSql(p) == Err(Raised(SubtreeConditions))
    ensures p.entity.Some? && !HasSubtree(p.where) && p.returning.Some? && FindSql(p.returning.value).Err? ==>
      DeleteSql(p) == Err(FindSql(p.returning.value).error)
    ensures DeleteSql(p).Ok? <==>
      p.entity.Some? && !HasSubtree(p.where) && (p.returning.Some? ==> FindSql(p.returning.value).Ok?)
  {
  }

  /** The chunks of a delete that renders, section by section. */
  lemma LinesParts(p: DeletePlan)
    requires DeleteLines(p).Ok?
    ensures p.entity.Some? && ReturningChunks(p.returning).Ok?
    ensures Lines(p) == DeclareChunks(p.tempTable, DeclareLines(p.pks)) + ["DELETE FROM " + TargetSql(p.entity.value)]
      + OutputChunks(p.tempTable, p.pks) + WhereChunks(Filter(p.where)) + ReturningChunks(p.returning).value
  {
  }

  /** Dropping the first section of five. */
  lemma DropFirst<T>(d: seq<T>, t: T, o: seq<T>, w: seq<T>, r: seq<T>)
    ensures (d + [t] + o + w + r)[|d|..] == [t] + o + w + r
  {
  }

  /** With a staging table the statement opens with its DECLARE block: one line per
      primary key column, a closing parenthesis and a blank line. */
  lemma DeclareBlock(p: DeletePlan)
    requires DeleteLines(p).Ok? && Present(p.tempTable)
    ensures var l, n := Lines(p), |p.pks|;
      |l| > n + 3
      && l[0] == "DECLARE " + p.tempTable.value + " AS TABLE("
      && (forall k :: 0 <= k < n ==> l[1 + k] == DeclareLine(p.pks[k].info.name, p.pks[k]))
      && l[n + 1] == ")" && l[n + 2] == ""
      && l[n + 3] == "DELETE FROM " + TargetSql(p.entity.value)
  {
    LinesParts(p);
    DeclareIndices(p.tempTable.value, DeclareLines(p.pks), "DELETE FROM " + TargetSql(p.entity.value),
                   OutputChunks(p.tempTable, p.pks), WhereChunks(Filter(p.where)), ReturningChunks(p.returning).value);
  }

  lemma DeclareIndices(table: string, d: seq<string>, t: string, o: seq<string>, w: seq<string>, r: seq<string>)
    ensures var l := ["DECLARE " + table + " AS TABLE("] + d + [")", ""] + [t] + o + w + r;
      |l| > |d| + 3 && l[0] == "DECLARE " + table + " AS TABLE(" && l[|d| + 1] == ")" && l[|d| + 2] == ""
      && l[|d| + 3] == t
      && forall k :: 0 <= k < |d| ==> l[1 + k] == d[k]
  {
  }

  /** The sections that follow the DELETE line, one after another. */
  lemma DeleteParts(p: DeletePlan)
    requires DeleteLines(p).Ok?
    ensures var d := if Present(p.tempTable) then |p.pks| + 3 else 0;
      var o := OutputChunks(p.tempTable, p.pks);
      var w := WhereChunks(Filter(p.where));
      var r := ReturningChunks(p.returning).value;
      Lines(p)[d..] == ["DELETE FROM " + TargetSql(p.entity.value)] + o + w + r
  {
    LinesParts(p);
    var dc := DeclareChunks(p.tempTable, DeclareLines(p.pks));
    assert |dc| == if Present(p.tempTable) then |p.pks| + 3 else 0;
    DropFirst(dc, "DELETE FROM " + TargetSql(p.entity.value), OutputChunks(p.tempTable, p.pks),
              WhereChunks(Filter(p.where)), ReturningChunks(p.returning).value);
  }

  /** Without a staging table there is no DECLARE block and no OUTPUT clause: the
      statement opens with the DELETE line, followed by WHERE or the read-back. */
  lemma NoStaging(p: DeletePlan)
    requires DeleteLines(p).Ok? && !Present(p.tempTable)
    ensures Lines(p)[0] == "DELETE FROM " + TargetSql(p.entity.value)
    ensures |Lines(p)| > 1 ==> Lines(p)[1] == (if |p.where| > 0 then "WHERE" else "")
  {
    DeleteParts(p);
    var w := WhereChunks(Filter(p.where));
    var r := ReturningChunks(p.returning).value;
    assert OutputChunks(p.tempTable, p.pks) == [];
    assert Lines(p)[0..] == Lines(p);
    assert w != [] ==> w[0] == "WHERE";
    assert w == [] <==> |p.where| == 0;
    assert r != [] ==> r[0] == "";
    SecondLine("DELETE FROM " + TargetSql(p.entity.value), w, r, if |p.where| > 0 then "WHERE" else "");
  }

  /** The first two entries of a line followed by two lists. */
  lemma SecondLine(a: string, w: seq<string>, r: seq<string>, x: string)
    requires w != [] ==> w[0] == x
    requires w == [] && r != [] ==> r[0] == x
    ensures ([a] + w + r)[0] == a
    ensures |[a] + w + r| > 1 ==> ([a] + w + r)[1] == x
  {
  }

  /** With a staging table the OUTPUT clause directly follows the DELETE line and lists
      every primary key column as `INSERTED.[column]`, before any WHERE. */
  lemma OutputBeforeWhere(p: DeletePlan)
    requires DeleteLines(p).Ok? && Present(p.tempTable)
    ensures var d := |p.pks| + 3;
      |Lines(p)| > d + 1
      && Lines(p)[d + 1] == "OUTPUT " + Join(InsertedColumns(p.pks), ",") + " INTO " + p.tempTable.value
      && (|p.where| > 0 ==> |Lines(p)| > d + 2 && Lines(p)[d + 2] == "WHERE")
  {
    DeleteParts(p);
    var d := |p.pks| + 3;
    var tail := Lines(p)[d..];
    assert tail[1] == Lines(p)[d + 1];
    if |p.where| > 0 {
      assert tail[2] == Lines(p)[d + 2];
    }
  }

  /** The read-back statement, when there is one, is the last chunk, after a blank line. */
  lemma ReturningLast(p: DeletePlan)
    requires DeleteLines(p).Ok?
    ensures p.returning.Some? ==>
      |Lines(p)| >= 3 && Lines(p)[|Lines(p)| - 1] == FindSql(p.returning.value).value
      && Lines(p)[|Lines(p)| - 2] == ""
    ensures p.returning.None? && |p.where| == 0 ==>
      Lines(p)[|Lines(p)| - 1] == (if Present(p.tempTable) then
        "OUTPUT " + Join(InsertedColumns(p.pks), ",") + " INTO " + p.tempTable.value
      else "DELETE FROM " + TargetSql(p.entity.value))
  {
    DeleteParts(p);
    var d := if Present(p.tempTable) then |p.pks| + 3 else 0;
    var tail := Lines(p)[d..];
    assert tail[|tail| - 1] == Lines(p)[|Lines(p)| - 1];
    if p.returning.Some? {
      assert tail[|tail| - 2] == Lines(p)[|Lines(p)| - 2];
    }
  }
}
