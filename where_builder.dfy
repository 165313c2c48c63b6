/** `WhereBuilder`: compiles a filter object into parameters and leaf conditions on a
    find context, and renders condition lists as SQL. */
module WhereBuilder {
  import opened Js
  import opened Schema
  import opened FindContext

  const SubtreeAndOr := "Not implemented subtree conditions _AND and _OR"
  const InExpectsArray := "Expected on operator \"in\" an array"
  const MapNotAFunction := "condition.right.map is not a function"

  /** The two fields of a context that filters write: its parameters and conditions. */
  datatype Filters = Filters(params: Fields, where: seq<Condition>)

  /** The filter compiler the aggregate, update and delete builders call
      (`FindQueryBuilder.buildWhere`, with no source). find.builder.ts has no such
      member, so those builders take it as a parameter: it returns the parameters and
      conditions it leaves on the context, and the error it throws, if any. */
  type WhereFn = (Value, Entity, Filters) -> Run<Filters>

  /** The parameter a field binds: the source and an underscore in front when a source
      is given. */
  function ParamKey(source: Option<string>, field: string): string
  {
    (if Present(source) then source.value + "_" else "") + field
  }

  /** The parameter bound to the `i`-th value of an `in` list. */
  function IndexedKey(key: string, i: nat): string
  {
    key + "_" + NatToString(i)
  }

  function ColumnCondition(source: Option<string>, columnName: string, operator: string, right: Operand): Condition
  {
    Leaf(Cond(ColumnSide(source, columnName), operator, right))
  }

  /** The parameters after binding each value of an `in` list to its indexed key. */
  function BindIn(params: Fields, key: string, items: seq<Value>): Fields
  {
    if items == [] then params
    else Put(BindIn(params, key, items[..|items| - 1]), IndexedKey(key, |items| - 1), items[|items| - 1])
  }

  /** The variables an `in` list compares with, one per value, in order. */
  function InSides(key: string, n: nat): (r: seq<Side>)
    ensures |r| == n
    ensures forall i :: 0 <= i < n ==> r[i] == VarSide(IndexedKey(key, i))
  {
    seq(n, i requires 0 <= i < n => VarSide(IndexedKey(key, i)))
  }

  lemma InSidesNext(key: string, n: nat)
    ensures InSides(key, n + 1) == InSides(key, n) + [VarSide(IndexedKey(key, n))]
  {
    assert InSides(key, n + 1)[..n] == InSides(key, n);
  }

  /** One operator of an object-valued filter. `equals` binds the whole operator object,
      `in` binds each array item, and any other operator adds nothing. */
  function OperatorStep(key: string, columnName: string, source: Option<string>, value: Value)
    : (Filters, (string, Value)) -> Run<Filters>
  {
    (f: Filters, op: (string, Value)) =>
      if op.0 == "equals" then
        Run(Filters(Put(f.params, key, value),
                    f.where + [ColumnCondition(source, columnName, "=", Single(VarSide(key)))]), None)
      else if op.0 == "in" then
        if !op.1.Arr? then Run(f, Some(Raised(InExpectsArray)))
        else Run(Filters(BindIn(f.params, key, op.1.items),
                         f.where + [ColumnCondition(source, columnName, "in", List(InSides(key, |op.1.items|)))]), None)
      else Run(f, None)
  }

  /** One field of the filter object. */
  function FieldStep(entity: Entity, source: Option<string>): (Filters, (string, Value)) -> Run<Filters>
  {
    (f: Filters, e: (string, Value)) => FieldRun(entity, source, f, e)
  }

  /** One field of `where`: a plain value binds one `=` parameter, an object is a set
      of operators, a relation is skipped, anything else throws. */
  function FieldRun(entity: Entity, source: Option<string>, f: Filters, e: (string, Value)): Run<Filters>
  {
    if e.0 == "_AND" || e.0 == "_OR" then Run(f, Some(Raised(SubtreeAndOr)))
    else
      match FindColumn(entity.columns, e.0)
      case Some(column) =>
        var key := ParamKey(source, e.0);
        if TypeOf(e.1) != "object" then
          Run(Filters(Put(f.params, key, e.1),
                      f.where + [ColumnCondition(source, column.columnName, "=", Single(VarSide(key)))]), None)
        else FoldRun(OperatorStep(key, column.columnName, source, e.1), f, Entries(e.1))
      case None =>
        if FindRelation(entity.relations, e.0).Some? then Run(f, None)
        else Run(f, Some(Raised("Unknown field name " + e.0)))
  }

  /** `buildWhere`: the filters after visiting every field of `where` in order, and the
      error that stopped it, if any. */
  function WhereRun(where: Value, entity: Entity, source: Option<string>, init: Filters): Run<Filters>
  {
    FoldRun(FieldStep(entity, source), init, Entries(where))
  }

  // ---------------------------------------------------------------- the builder

  /** The `in` loop: binds each value and collects the variables that compare with it. */
  method BindInValues(context: FindContextQueryBuilder, key: string, items: seq<Value>) returns (sides: seq<Side>)
    modifies context
    ensures context.Plan() == old(context.Plan()).(params := BindIn(old(context.params), key, items))
    ensures sides == InSides(key, |items|)
  {
    sides := [];
    for i := 0 to |items|
      invariant context.Plan() == old(context.Plan()).(params := context.params)
      invariant context.params == BindIn(old(context.params), key, items[..i])
      invariant sides == InSides(key, i)
    {
      assert items[..i + 1][..i] == items[..i];
      var name := IndexedKey(key, i);
      InSidesNext(key, i);
      context.params := Put(context.params, name, items[i]);
      sides := sides + [VarSide(name)];
    }
    assert items[..|items|] == items;
  }

  /** The operators of one object-valued field. */
  method BuildOperators(context: FindContextQueryBuilder, key: string, columnName: string, source: Option<string>, value: Value)
    returns (error: Option<Failure>)
    modifies context
    ensures var r := FoldRun(OperatorStep(key, columnName, source, value),
                             Filters(old(context.params), old(context.where)), Entries(value));
      context.Plan() == old(context.Plan()).(params := r.state.params, where := r.state.where)
      && error == r.error
  {
    var step := OperatorStep(key, columnName, source, value);
    ghost var init := Filters(context.params, context.where);
    var ops := Entries(value);
    error := None;
    for i := 0 to |ops|
      invariant FoldRun(step, init, ops[..i]).error.None?
      invariant context.Plan() == old(context.Plan()).(params := FoldRun(step, init, ops[..i]).state.params,
                                                         where := FoldRun(step, init, ops[..i]).state.where)
    {
      FoldRunNext(step, init, ops, i);
      var op := ops[i];
      if op.0 == "equals" {
        context.params := Put(context.params, key, value);
        context.where := context.where + [ColumnCondition(source, columnName, "=", Single(VarSide(key)))];
      } else if op.0 == "in" {
        if !op.1.Arr? {
          FoldRunStop(step, init, ops, i + 1);
          return Some(Raised(InExpectsArray));
        }
        var sides := BindInValues(context, key, op.1.items);
        context.where := context.where + [ColumnCondition(source, columnName, "in", List(sides))];
      }
    }
    assert ops[..|ops|] == ops;
  }

  /** One field of the filter object. */
  method BuildField(context: FindContextQueryBuilder, entity: Entity, source: Option<string>, e: (string, Value))
    returns (error: Option<Failure>)
    modifies context
    ensures var r := FieldStep(entity, source)(Filters(old(context.params), old(context.where)), e);
      context.Plan() == old(context.Plan()).(params := r.state.params, where := r.state.where)
      && error == r.error
  {
    var (field, value) := e;
    if field == "_AND" || field == "_OR" {
      return Some(Raised(SubtreeAndOr));
    }
    var column := FindColumn(entity.columns, field);
    if column.Some? {
      var key := ParamKey(source, field);
      if TypeOf(value) != "object" {
        context.params := Put(context.params, key, value);
        context.where := context.where + [ColumnCondition(source, column.value.columnName, "=", Single(VarSide(key)))];
        error := None;
      } else {
        error := BuildOperators(context, key, column.value.columnName, source, value);
      }
    } else {
      var relation := FindRelation(entity.relations, field);
      if relation.Some? {
        error := None;
      } else {
        error := Some(Raised("Unknown field name " + field));
      }
    }
  }

  /** `buildWhere`: visits every field of `where`, binding parameters and pushing
      conditions on the context, until a field throws. */
  method BuildWhere(where: Value, entity: Entity, context: FindContextQueryBuilder, source: Option<string>)
    returns (error: Option<Failure>)
    modifies context
    ensures var r := WhereRun(where, entity, source, Filters(old(context.params), old(context.where)));
      context.Plan() == old(context.Plan()).(params := r.state.params, where := r.state.where)
      && error == r.error
  {
    var step := FieldStep(entity, source);
    ghost var init := Filters(context.params, context.where);
    var fields := Entries(where);
    error := None;
    for i := 0 to |fields|
      invariant error.None?
      invariant FoldRun(step, init, fields[..i]).error.None?
      invariant context.Plan() == old(context.Plan()).(params := FoldRun(step, init, fields[..i]).state.params,
                                                         where := FoldRun(step, init, fields[..i]).state.where)
    {
      FoldRunNext(step, init, fields, i);
      error := BuildField(context, entity, source, fields[i]);
      if error.Some? {
        FoldRunStop(step, init, fields, i + 1);
        return;
      }
    }
    assert fields[..|fields|] == fields;
  }

  // ---------------------------------------------------------------- the renderer

  /** `toSqlCondition`: an `in` condition maps its list of sides into `(a,b,...)`; any
      other operator renders its right side directly. */
  function WhereCondSql(c: Cond): Result<string>
  {
    if c.operator == "in" then
      if c.right.List? then Ok(SideSql(c.left) + " in (" + Join(SideList(c.right.sides), ",") + ")")
      else Err(TypeError(MapNotAFunction))
    else Ok(SideSql(c.left) + " " + c.operator + " " + (if c.right.Single? then SideSql(c.right.side) else "undefined"))
  }

  /** One line per leaf; a subtree throws. */
  function LineStep(lines: seq<string>, c: Condition): Result<seq<string>>
  {
    match c
    case Tree(_, _) => Err(Raised(SubtreeConditions))
    case Leaf(cond) =>
      var s :- WhereCondSql(cond);
      Ok(lines + ["\t" + s])
  }

  /** `conditionsToSql`: the condition lines joined with newlines. */
  function ConditionsSql(conditions: seq<Condition>): Result<string>
  {
    var lines :- FoldResult(LineStep, [], conditions);
    Ok(Join(lines, "\n"))
  }

  method ConditionsToSql(conditions: seq<Condition>) returns (r: Result<string>)
    ensures r == ConditionsSql(conditions)
  {
    var lines: seq<string> := [];
    for i := 0 to |conditions|
      invariant FoldResult(LineStep, [], conditions[..i]) == Ok(lines)
    {
      FoldResultNext(LineStep, [], conditions, i);
      var c := conditions[i];
      if c.Tree? {
        FoldResultErr(LineStep, [], conditions, i + 1);
        return Err(Raised(SubtreeConditions));
      }
      var s := WhereCondSql(c.cond);
      if s.Err? {
        FoldResultErr(LineStep, [], conditions, i + 1);
        return Err(s.error);
      }
      lines := lines + ["\t" + s.value];
    }
    assert conditions[..|conditions|] == conditions;
    return Ok(Join(lines, "\n"));
  }

  // ---------------------------------------------------------------- properties

  lemma IndexedKeyInjective(key: string, i: nat, j: nat)
    requires IndexedKey(key, i) == IndexedKey(key, j)
    ensures i == j
  {
    var n := |key| + 1;
    assert IndexedKey(key, i)[n..] == NatToString(i);
    assert IndexedKey(key, j)[n..] == NatToString(j);
    NatToStringInjective(i, j);
  }

  /** Binding an `in` list gives the `i`-th value to the `i`-th indexed key. */
  lemma {:induction false} BindInHit(params: Fields, key: string, items: seq<Value>, i: nat)
    requires i < |items|
    ensures Lookup(BindIn(params, key, items), IndexedKey(key, i)) == items[i]
    decreases |items|
  {
    var n := |items| - 1;
    var prev := BindIn(params, key, items[..n]);
    var k := IndexedKey(key, i);
    assert BindIn(params, key, items) == Put(prev, IndexedKey(key, n), items[n]);
    LookupPut(prev, IndexedKey(key, n), items[n], k);
    if i < n {
      if k == IndexedKey(key, n) {
        IndexedKeyInjective(key, i, n);
      }
      BindInHit(params, key, items[..n], i);
      assert items[..n][i] == items[i];
    }
  }

  /** Binding an `in` list leaves every parameter that is not an indexed key alone. */
  lemma {:induction false} BindInMiss(params: Fields, key: string, items: seq<Value>, other: string)
    requires forall i: nat :: i < |items| ==> other != IndexedKey(key, i)
    ensures Lookup(BindIn(params, key, items), other) == Lookup(params, other)
    decreases |items|
  {
    if items != [] {
      var n := |items| - 1;
      BindInMiss(params, key, items[..n], other);
      LookupPut(BindIn(params, key, items[..n]), IndexedKey(key, n), items[n], other);
    }
  }

  /** A filter value that is not an object binds one parameter, keyed by the source and
      the field, to the value, and pushes one `=` condition on that variable. */
  lemma ScalarFilter(entity: Entity, source: Option<string>, f: Filters, field: string, value: Value, column: Column)
    requires field != "_AND" && field != "_OR"
    requires FindColumn(entity.columns, field) == Some(column)
    requires TypeOf(value) != "object"
    ensures var r, key := FieldStep(entity, source)(f, (field, value)), ParamKey(source, field);
      r.error.None?
      && Lookup(r.state.params, key) == value
      && (forall other :: other != key ==> Lookup(r.state.params, other) == Lookup(f.params, other))
      && r.state.where == f.where + [Leaf(Cond(ColumnSide(source, column.columnName), "=", Single(VarSide(key))))]
      && key == (if Present(source) then source.value + "_" + field else field)
  {
    var key := ParamKey(source, field);
    assert FieldStep(entity, source)(f, (field, value)) ==
      Run(Filters(Put(f.params, key, value),
                  f.where + [ColumnCondition(source, column.columnName, "=", Single(VarSide(key)))]), None);
    forall other
      ensures Lookup(Put(f.params, key, value), other) == if other == key then value else Lookup(f.params, other)
    {
      LookupPut(f.params, key, value, other);
    }
  }

  /** `in` with an array of n values binds `<key>_0` ... `<key>_{n-1}` to them in order
      and pushes one `in` condition listing those variables in the same order. */
  lemma InFilter(entity: Entity, source: Option<string>, f: Filters, field: string, items: seq<Value>, column: Column)
    requires field != "_AND" && field != "_OR"
    requires FindColumn(entity.columns, field) == Some(column)
    ensures var r, key := FieldStep(entity, source)(f, (field, Obj([("in", Arr(items))]))), ParamKey(source, field);
      r.error.None?
      && (forall i :: 0 <= i < |items| ==> Lookup(r.state.params, IndexedKey(key, i)) == items[i])
      && |r.state.where| == |f.where| + 1
      && r.state.where[..|f.where|] == f.where
      && r.state.where[|f.where|] == Leaf(Cond(ColumnSide(source, column.columnName), "in", List(InSides(key, |items|))))
  {
    var key := ParamKey(source, field);
    var ops: Fields := [("in", Arr(items))];
    var step := OperatorStep(key, column.columnName, source, Obj(ops));
    FoldRunOne(step, f, ops[0]);
    assert Entries(Obj(ops)) == ops;
    var r := Run(Filters(BindIn(f.params, key, items),
                         f.where + [ColumnCondition(source, column.columnName, "in", List(InSides(key, |items|)))]), None);
    assert step(f, ops[0]) == r;
    assert FieldStep(entity, source)(f, (field, Obj(ops))) == r;
    forall i | 0 <= i < |items|
      ensures Lookup(BindIn(f.params, key, items), IndexedKey(key, i)) == items[i]
    {
      BindInHit(f.params, key, items, i);
    }
  }

  /** `in` with anything but an array throws, leaving the filters as they were. */
  lemma InNeedsArray(entity: Entity, source: Option<string>, f: Filters, field: string, v: Value, column: Column)
    requires field != "_AND" && field != "_OR"
    requires FindColumn(entity.columns, field) == Some(column)
    requires !v.Arr?
    ensures FieldStep(entity, source)(f, (field, Obj([("in", v)]))) == Run(f, Some(Raised(InExpectsArray)))
  {
    var ops: Fields := [("in", v)];
    FoldRunOne(OperatorStep(ParamKey(source, field), column.columnName, source, Obj(ops)), f, ops[0]);
  }

  /** `equals` binds the parameter to the whole operator object, not to the value
      inside it. */
  lemma EqualsBindsObject(entity: Entity, source: Option<string>, f: Filters, field: string, x: Value, column: Column)
    requires field != "_AND" && field != "_OR"
    requires FindColumn(entity.columns, field) == Some(column)
    ensures var r, key := FieldStep(entity, source)(f, (field, Obj([("equals", x)]))), ParamKey(source, field);
      r.error.None?
      && Lookup(r.state.params, key) == Obj([("equals", x)])
      && r.state.where == f.where + [Leaf(Cond(ColumnSide(source, column.columnName), "=", Single(VarSide(key))))]
  {
    var key := ParamKey(source, field);
    var ops: Fields := [("equals", x)];
    var step := OperatorStep(key, column.columnName, source, Obj(ops));
    FoldRunOne(step, f, ops[0]);
    assert Entries(Obj(ops)) == ops;
    assert FieldStep(entity, source)(f, (field, Obj(ops))) == FoldRun(step, f, ops);
    assert step(f, ops[0]).state.where == f.where + [ColumnCondition(source, column.columnName, "=", Single(VarSide(key)))];
    LookupPut(f.params, key, Obj(ops), key);
  }

  /** Operator keys other than `equals` and `in` add nothing. */
  lemma {:induction false} OtherOperatorsIgnored(key: string, columnName: string, source: Option<string>, value: Value,
                                                 f: Filters, ops: Fields)
    requires forall k :: 0 <= k < |ops| ==> ops[k].0 != "equals" && ops[k].0 != "in"
    ensures FoldRun(OperatorStep(key, columnName, source, value), f, ops) == Run(f, None)
    decreases |ops|
  {
    if ops != [] {
      OtherOperatorsIgnored(key, columnName, source, value, f, ops[..|ops| - 1]);
    }
  }

  /** `_AND` and `_OR` throw, a field that is neither a column nor a relation throws,
      and a relation field adds nothing. */
  lemma FieldErrors(entity: Entity, source: Option<string>, f: Filters, field: string, value: Value)
    ensures field == "_AND" || field == "_OR" ==>
      FieldStep(entity, source)(f, (field, value)) == Run(f, Some(Raised(SubtreeAndOr)))
    ensures field != "_AND" && field != "_OR" && FindColumn(entity.columns, field).None? ==>
      FieldStep(entity, source)(f, (field, value)) ==
        if FindRelation(entity.relations, field).Some? then Run(f, None)
        else Run(f, Some(Raised("Unknown field name " + field)))
  {
  }

  /** A condition the builder produces: a leaf whose operator is `in` exactly when its
      right side is a list. */
  predicate WellFormed(c: Condition)
  {
    c.Leaf? && (c.cond.operator == "in" <==> c.cond.right.List?)
  }

  predicate AllWellFormed(cs: seq<Condition>)
  {
    forall k :: 0 <= k < |cs| ==> WellFormed(cs[k])
  }

  /** Every condition `buildWhere` pushes is well formed. */
  lemma WhereRunWellFormed(where: Value, entity: Entity, source: Option<string>, init: Filters)
    requires AllWellFormed(init.where)
    ensures AllWellFormed(WhereRun(where, entity, source, init).state.where)
  {
    var inv := (f: Filters) => AllWellFormed(f.where);
    forall key, columnName, src, value, f: Filters, op: (string, Value) | inv(f)
      ensures inv(OperatorStep(key, columnName, src, value)(f, op).state)
    {
    }
    forall f: Filters, e: (string, Value) | inv(f)
      ensures inv(FieldStep(entity, source)(f, e).state)
    {
      var column := FindColumn(entity.columns, e.0);
      if e.0 != "_AND" && e.0 != "_OR" && column.Some? && TypeOf(e.1) == "object" {
        FoldRunKeeps(OperatorStep(ParamKey(source, e.0), column.value.columnName, source, e.1), f, Entries(e.1), inv);
      }
    }
    FoldRunKeeps(FieldStep(entity, source), init, Entries(where), inv);
  }

  /** On a well-formed condition the where renderer is the intended condition renderer:
      an `in` list prints as `(a,b,...)` with no spaces. */
  lemma WhereCondSqlAgrees(c: Cond)
    requires c.operator == "in" <==> c.right.List?
    ensures WhereCondSql(c) == Ok(CondSqlIntended(c))
  {
    var l := SideSql(c.left);
    if c.operator == "in" {
      var list := Join(SideList(c.right.sides), ",");
      assert l + " in (" + list + ")" == l + " " + c.operator + " " + ("(" + list + ")");
    }
  }

  /** `conditionsToSql` succeeds exactly when every condition is a leaf that renders,
      and then gives one tab-prefixed line per condition, in order. */
  lemma ConditionLines(cs: seq<Condition>)
    ensures FoldResult(LineStep, [], cs).Ok? <==>
      forall k :: 0 <= k < |cs| ==> cs[k].Leaf? && WhereCondSql(cs[k].cond).Ok?
    ensures FoldResult(LineStep, [], cs).Ok? ==>
      |FoldResult(LineStep, [], cs).value| == |cs|
      && forall k :: 0 <= k < |cs| ==> FoldResult(LineStep, [], cs).value[k] == "\t" + WhereCondSql(cs[k].cond).value
  {
    var init: seq<string> := [];
    var ok := (c: Condition) => c.Leaf? && WhereCondSql(c.cond).Ok?;
    var g := (c: Condition) => if ok(c) then "\t" + WhereCondSql(c.cond).value else "";
    forall lines, c ensures (LineStep(lines, c).Ok? <==> ok(c)) && (ok(c) ==> LineStep(lines, c) == Ok(lines + [g(c)])) {
    }
    FoldResultOkIff(LineStep, init, cs, ok);
    if forall k :: 0 <= k < |cs| ==> ok(cs[k]) {
      FoldResultMaps(LineStep, init, cs, ok, g);
      var lines := FoldResult(LineStep, init, cs).value;
      forall k | 0 <= k < |cs| ensures lines[k] == "\t" + WhereCondSql(cs[k].cond).value {
        assert ok(cs[k]) && lines[k] == lines[|init| + k] == g(cs[k]);
      }
    }
  }

  /** The conditions the builder produces always render. */
  lemma BuiltConditionsRender(where: Value, entity: Entity, source: Option<string>)
    ensures var cs := WhereRun(where, entity, source, Filters([], [])).state.where;
      ConditionsSql(cs).Ok?
      && forall k :: 0 <= k < |cs| ==> cs[k].Leaf? && WhereCondSql(cs[k].cond) == Ok(CondSqlIntended(cs[k].cond))
  {
    var cs := WhereRun(where, entity, source, Filters([], [])).state.where;
    WhereRunWellFormed(where, entity, source, Filters([], []));
    forall k | 0 <= k < |cs|
      ensures cs[k].Leaf? && WhereCondSql(cs[k].cond) == Ok(CondSqlIntended(cs[k].cond))
    {
      WhereCondSqlAgrees(cs[k].cond);
    }
    ConditionLines(cs);
  }
}
