/** The JavaScript value model shared by every component: the dynamic values the
    driver reads from its arguments and recordsets, the errors it throws, and the
    handful of language operations (for-in, property read and assignment, truthiness,
    strict equality, template-literal conversion, join and split) whose exact
    behaviour the builders and converters depend on. */
module Js {

  datatype Option<T> = None | Some(value: T)

  /** `Raised` is an `Error` the driver throws on purpose; `TypeError` is the crash the
      JavaScript runtime raises when the code reads a property of `undefined` or `null`
      (for instance `column.columnName` after a `find` that matched nothing). */
  datatype Failure = Raised(message: string) | TypeError(message: string)

  datatype Result<T> = Ok(value: T) | Err(error: Failure) {
    predicate IsFailure() { Err? }
    function PropagateFailure<U>(): Result<U>
      requires Err?
    {
      Err(error)
    }
    function Extract(): T
      requires Ok?
    {
      value
    }
  }

  /** A JavaScript value. Numbers are integers; a `Date` is known by its ISO text;
      an object is its own properties in enumeration order. */
  datatype Value =
    | Undefined
    | Null
    | Bool(b: bool)
    | Num(n: int)
    | Str(s: string)
    | Date(iso: string)
    | Arr(items: seq<Value>)
    | Obj(fields: seq<(string, Value)>)

  type Fields = seq<(string, Value)>

  /** JavaScript truthiness: `undefined`, `null`, `false`, `0` and `''` are falsy. */
  predicate Truthy(v: Value)
  {
    match v
    case Undefined => false
    case Null => false
    case Bool(b) => b
    case Num(n) => n != 0
    case Str(s) => s != ""
    case _ => true
  }

  /** Truthiness of an optional string property (`if (table.schema)`). */
  predicate Present(o: Option<string>)
  {
    o.Some? && o.value != ""
  }

  /** `typeof v` */
  function TypeOf(v: Value): string
  {
    match v
    case Undefined => "undefined"
    case Bool(_) => "boolean"
    case Num(_) => "number"
    case Str(_) => "string"
    case _ => "object"
  }

  /** `a === b`. Objects, arrays and dates compare by identity, and two values read
      from different places are never the same object, so only primitives match. */
  predicate StrictEq(a: Value, b: Value)
  {
    a == b && !(a.Date? || a.Arr? || a.Obj?)
  }

  /** `v == true` for the values the directive arguments carry: `true`, `1` and `'1'`. */
  predicate LooseEqTrue(v: Value)
  {
    v == Bool(true) || v == Num(1) || v == Str("1")
  }

  /** `v == null`: loose equality with null holds for null and undefined only. */
  predicate Nullish(v: Value)
  {
    v.Null? || v.Undefined?
  }

  function Keys(fields: Fields): (r: seq<string>)
    ensures |r| == |fields|
    ensures forall i :: 0 <= i < |fields| ==> r[i] == fields[i].0
  {
    if fields == [] then [] else [fields[0].0] + Keys(fields[1..])
  }

  /** The keys of a list are those of all but its last entry, then the last entry's. */
  lemma {:induction false} KeysSnoc(fields: Fields)
    requires fields != []
    ensures Keys(fields) == Keys(fields[..|fields| - 1]) + [fields[|fields| - 1].0]
  {
    if |fields| > 1 {
      var init := fields[..|fields| - 1];
      var rest := fields[1..];
      KeysSnoc(rest);
      assert rest[..|rest| - 1] == init[1..];
      assert init[0] == fields[0];
      var head := [fields[0].0];
      var last := [fields[|fields| - 1].0];
      assert Keys(fields) == head + (Keys(init[1..]) + last);
      assert Keys(init) == head + Keys(init[1..]);
      assert head + (Keys(init[1..]) + last) == (head + Keys(init[1..])) + last;
    }
  }

  /** `obj[key]` on a plain object: the value of the key, or `undefined`. */
  function Lookup(fields: Fields, key: string): Value
  {
    if fields == [] then Undefined
    else if fields[0].0 == key then fields[0].1
    else Lookup(fields[1..], key)
  }

  /** `obj[key] = value`: an existing key keeps its place and takes the new value,
      a new key is appended. */
  function Put(fields: Fields, key: string, value: Value): (r: Fields)
    ensures key in Keys(r)
    ensures key in Keys(fields) ==> Keys(r) == Keys(fields)
    ensures key !in Keys(fields) ==> Keys(r) == Keys(fields) + [key]
  {
    if fields == [] then [(key, value)]
    else if fields[0].0 == key then [(key, value)] + fields[1..]
    else
      var rest := Put(fields[1..], key, value);
      KeysCons(fields[0], fields[1..], rest, key);
      [fields[0]] + rest
  }

  /** The keys of an entry followed by a list, and how a key appended to the list shows. */
  lemma KeysCons(head: (string, Value), tail: Fields, rest: Fields, key: string)
    ensures Keys([head] + rest) == [head.0] + Keys(rest)
    ensures Keys([head] + tail) == [head.0] + Keys(tail)
    ensures Keys(rest) == Keys(tail) + [key] ==> Keys([head] + rest) == Keys([head] + tail) + [key]
  {
    assert ([head] + rest)[1..] == rest;
    assert ([head] + tail)[1..] == tail;
  }

  lemma {:induction false} LookupPut(fields: Fields, key: string, value: Value, other: string)
    ensures Lookup(Put(fields, key, value), other) == if other == key then value else Lookup(fields, other)
  {
    if fields != [] && fields[0].0 != key {
      LookupPut(fields[1..], key, value, other);
    }
  }

  /** Keys are distinct, as an object's own properties are. */
  predicate DistinctKeys(fields: Fields)
  {
    forall i, j :: 0 <= i < j < |fields| ==> fields[i].0 != fields[j].0
  }

  lemma {:induction false} LookupAt(fields: Fields, k: nat)
    requires DistinctKeys(fields) && k < |fields|
    ensures Lookup(fields, fields[k].0) == fields[k].1
  {
    if k > 0 {
      assert fields[0].0 != fields[k].0;
      assert fields[1..][k - 1] == fields[k];
      LookupAt(fields[1..], k - 1);
    }
  }

  /** The (key, value) pairs a `for (const k in v)` loop visits, each with `v[k]`:
      own keys of an object, indices of an array or a string, nothing otherwise. */
  function Entries(v: Value): Fields
  {
    match v
    case Obj(fields) => fields
    case Arr(items) => seq(|items|, i requires 0 <= i < |items| => (NatToString(i), items[i]))
    case Str(s) => seq(|s|, i requires 0 <= i < |s| => (NatToString(i), Str([s[i]])))
    case _ => []
  }

  /** The items a `for (const x of v)` loop visits: an array's items or a string's
      characters; any other value is not iterable and the loop crashes. */
  function Iterate(v: Value): Result<seq<Value>>
  {
    match v
    case Arr(items) => Ok(items)
    case Str(s) => Ok(seq(|s|, i requires 0 <= i < |s| => Str([s[i]])))
    case _ => Err(TypeError(JsString(v) + " is not iterable"))
  }

  /** A left fold that stops at the first failure: the result of a loop whose body
      may throw, applied to the items in order. */
  function FoldResult<S, X>(step: (S, X) -> Result<S>, init: S, xs: seq<X>): Result<S>
  {
    if xs == [] then Ok(init)
    else
      var prev :- FoldResult(step, init, xs[..|xs| - 1]);
      step(prev, xs[|xs| - 1])
  }

  lemma FoldResultNext<S, X>(step: (S, X) -> Result<S>, init: S, xs: seq<X>, i: nat)
    requires i < |xs|
    ensures FoldResult(step, init, xs[..i + 1]) ==
      if FoldResult(step, init, xs[..i]).Err? then Err(FoldResult(step, init, xs[..i]).error)
      else step(FoldResult(step, init, xs[..i]).value, xs[i])
  {
    assert xs[..i + 1][..i] == xs[..i];
  }

  /** Once the loop has thrown, the later items change nothing. */
  lemma {:induction false} FoldResultErr<S, X>(step: (S, X) -> Result<S>, init: S, xs: seq<X>, i: nat)
    requires i <= |xs| && FoldResult(step, init, xs[..i]).Err?
    ensures FoldResult(step, init, xs) == FoldResult(step, init, xs[..i])
    decreases |xs| - i
  {
    if i == |xs| {
      assert xs[..i] == xs;
    } else {
      FoldResultNext(step, init, xs, i);
      FoldResultErr(step, init, xs, i + 1);
    }
  }

  /** A loop whose steps throw exactly on the items `ok` rejects finishes exactly when
      every item is accepted. */
  lemma {:induction false} FoldResultOkIff<S, X>(step: (S, X) -> Result<S>, init: S, xs: seq<X>, ok: X -> bool)
    requires forall s, x :: step(s, x).Ok? <==> ok(x)
    ensures FoldResult(step, init, xs).Ok? <==> forall j :: 0 <= j < |xs| ==> ok(xs[j])
  {
    if xs != [] {
      var n := |xs| - 1;
      FoldResultOkIff(step, init, xs[..n], ok);
      assert forall j :: 0 <= j < n ==> xs[..n][j] == xs[j];
    }
  }

  /** ... and when it throws, it throws the error of the first item rejected. */
  lemma {:induction false} FoldResultFirstError<S, X>(step: (S, X) -> Result<S>, init: S, xs: seq<X>,
                                                      ok: X -> bool, err: X -> Failure)
    requires forall s, x :: step(s, x).Ok? <==> ok(x)
    requires forall s, x :: step(s, x).Err? ==> step(s, x).error == err(x)
    ensures forall i :: 0 <= i < |xs| && !ok(xs[i]) && (forall j :: 0 <= j < i ==> ok(xs[j])) ==>
      FoldResult(step, init, xs) == Err(err(xs[i]))
  {
    if xs != [] {
      var n := |xs| - 1;
      var prev := FoldResult(step, init, xs[..n]);
      FoldResultFirstError(step, init, xs[..n], ok, err);
      FoldResultOkIff(step, init, xs[..n], ok);
      forall i | 0 <= i < |xs| && !ok(xs[i]) && (forall j :: 0 <= j < i ==> ok(xs[j]))
        ensures FoldResult(step, init, xs) == Err(err(xs[i]))
      {
        assert forall j :: 0 <= j < n ==> xs[..n][j] == xs[j];
        if i < n {
          assert !ok(xs[..n][i]) && forall j :: 0 <= j < i ==> ok(xs[..n][j]);
        }
      }
    }
  }

  /** When some item is rejected, there is a first one. */
  lemma FirstBad<X>(xs: seq<X>, ok: X -> bool) returns (i: nat)
    requires exists j :: 0 <= j < |xs| && !ok(xs[j])
    ensures i < |xs| && !ok(xs[i]) && forall j :: 0 <= j < i ==> ok(xs[j])
  {
    i := 0;
    while ok(xs[i])
      invariant i < |xs| && exists j :: i <= j < |xs| && !ok(xs[j])
      invariant forall j :: 0 <= j < i ==> ok(xs[j])
      decreases |xs| - i
    {
      i := i + 1;
    }
  }

  /** A loop none of whose steps throws is the reduce of what the steps compute. */
  lemma {:induction false} FoldResultReduces<S, X>(step: (S, X) -> Result<S>, init: S, xs: seq<X>,
                                                   ok: X -> bool, h: (S, X) -> S)
    requires forall s, x :: ok(x) ==> step(s, x) == Ok(h(s, x))
    requires forall j :: 0 <= j < |xs| ==> ok(xs[j])
    ensures FoldResult(step, init, xs) == Ok(FoldLeft(h, init, xs))
  {
    if xs != [] {
      var n := |xs| - 1;
      assert forall j :: 0 <= j < n ==> xs[..n][j] == xs[j];
      FoldResultReduces(step, init, xs[..n], ok, h);
    }
  }

  lemma MapsStepOk<Y, X>(step: (seq<Y>, X) -> Result<seq<Y>>, ok: X -> bool, g: X -> Y, s: seq<Y>, x: X)
    requires forall s, x {:trigger step(s, x)} :: ok(x) ==> step(s, x) == Ok(s + [g(x)])
    requires ok(x)
    ensures step(s, x) == Ok(s + [g(x)])
  {
  }

  /** A loop none of whose steps throws, each appending `g` of its item, appends `g`
      of every item in order. */
  lemma {:induction false} FoldResultMaps<Y, X>(step: (seq<Y>, X) -> Result<seq<Y>>, init: seq<Y>, xs: seq<X>,
                                                ok: X -> bool, g: X -> Y)
    requires forall s, x {:trigger step(s, x)} :: ok(x) ==> step(s, x) == Ok(s + [g(x)])
    requires forall j :: 0 <= j < |xs| ==> ok(xs[j])
    ensures FoldResult(step, init, xs).Ok?
    ensures var r := FoldResult(step, init, xs).value;
      |r| == |init| + |xs| && r[..|init|] == init && forall j :: 0 <= j < |xs| ==> r[|init| + j] == g(xs[j])
  {
    if xs != [] {
      var n := |xs| - 1;
      assert forall j :: 0 <= j < n ==> xs[..n][j] == xs[j];
      FoldResultMaps(step, init, xs[..n], ok, g);
      var prev := FoldResult(step, init, xs[..n]).value;
      var r := prev + [g(xs[n])];
      assert FoldResult(step, init, xs[..n]) == Ok(prev);
      MapsStepOk(step, ok, g, prev, xs[n]);
      assert FoldResult(step, init, xs) == Ok(r);
      assert forall j :: |init| <= j < |init| + n ==> r[j] == prev[j];
    }
  }

  /** How a loop that updates shared state and may throw ends: the state it left
      behind, and the error it threw, if any. */
  datatype Run<S> = Run(state: S, error: Option<Failure>)

  /** A left fold that keeps the state reached when a step throws and skips the rest. */
  function FoldRun<S, X>(step: (S, X) -> Run<S>, init: S, xs: seq<X>): Run<S>
  {
    if xs == [] then Run(init, None)
    else
      var prev := FoldRun(step, init, xs[..|xs| - 1]);
      if prev.error.Some? then prev else step(prev.state, xs[|xs| - 1])
  }

  lemma FoldRunNext<S, X>(step: (S, X) -> Run<S>, init: S, xs: seq<X>, i: nat)
    requires i < |xs|
    ensures FoldRun(step, init, xs[..i + 1]) ==
      if FoldRun(step, init, xs[..i]).error.Some? then FoldRun(step, init, xs[..i])
      else step(FoldRun(step, init, xs[..i]).state, xs[i])
  {
    assert xs[..i + 1][..i] == xs[..i];
  }

  lemma FoldRunOne<S, X>(step: (S, X) -> Run<S>, init: S, x: X)
    ensures FoldRun(step, init, [x]) == step(init, x)
  {
    assert [x][..0] == [];
  }

  /** Once a step has thrown, the later items change nothing. */
  lemma {:induction false} FoldRunStop<S, X>(step: (S, X) -> Run<S>, init: S, xs: seq<X>, i: nat)
    requires i <= |xs| && FoldRun(step, init, xs[..i]).error.Some?
    ensures FoldRun(step, init, xs) == FoldRun(step, init, xs[..i])
    decreases |xs| - i
  {
    if i == |xs| {
      assert xs[..i] == xs;
    } else {
      FoldRunNext(step, init, xs, i);
      FoldRunStop(step, init, xs, i + 1);
    }
  }

  /** A property every step keeps holds of the state the fold ends in. */
  lemma {:induction false} FoldRunKeeps<S, X>(step: (S, X) -> Run<S>, init: S, xs: seq<X>, inv: S -> bool)
    requires inv(init)
    requires forall s, x :: inv(s) ==> inv(step(s, x).state)
    ensures inv(FoldRun(step, init, xs).state)
  {
    if xs != [] {
      FoldRunKeeps(step, init, xs[..|xs| - 1], inv);
    }
  }

  /** A loop whose steps throw exactly on the items `ok` rejects finishes exactly when
      every item is accepted. */
  lemma {:induction false} FoldRunOkIff<S, X>(step: (S, X) -> Run<S>, init: S, xs: seq<X>, ok: X -> bool)
    requires forall s, x :: step(s, x).error.None? <==> ok(x)
    ensures FoldRun(step, init, xs).error.None? <==> forall j :: 0 <= j < |xs| ==> ok(xs[j])
  {
    if xs != [] {
      var n := |xs| - 1;
      FoldRunOkIff(step, init, xs[..n], ok);
      assert forall j :: 0 <= j < n ==> xs[..n][j] == xs[j];
    }
  }

  /** ... and when it throws, it throws the error of the first item rejected. */
  lemma {:induction false} FoldRunFirstError<S, X>(step: (S, X) -> Run<S>, init: S, xs: seq<X>,
                                                   ok: X -> bool, err: X -> Failure)
    requires forall s, x :: step(s, x).error.None? <==> ok(x)
    requires forall s, x :: step(s, x).error.Some? ==> step(s, x).error == Some(err(x))
    ensures var r := FoldRun(step, init, xs);
      r.error.Some? ==>
        exists j :: 0 <= j < |xs| && !ok(xs[j]) && r.error == Some(err(xs[j]))
          && forall i :: 0 <= i < j ==> ok(xs[i])
  {
    if xs != [] {
      var n := |xs| - 1;
      var prev := FoldRun(step, init, xs[..n]);
      FoldRunFirstError(step, init, xs[..n], ok, err);
      assert forall j :: 0 <= j < n ==> xs[..n][j] == xs[j];
      if prev.error.None? {
        FoldRunOkIff(step, init, xs[..n], ok);
      } else {
        var j :| 0 <= j < n && !ok(xs[..n][j]) && prev.error == Some(err(xs[..n][j]))
          && forall i :: 0 <= i < j ==> ok(xs[..n][i]);
        assert !ok(xs[j]) && forall i :: 0 <= i < j ==> ok(xs[i]);
      }
    }
  }

  lemma MapsStep<Y, X>(step: (seq<Y>, X) -> Run<seq<Y>>, ok: X -> bool, g: X -> Y, s: seq<Y>, x: X)
    requires forall s, x {:trigger step(s, x)} :: ok(x) ==> step(s, x) == Run(s + [g(x)], None)
    requires ok(x)
    ensures step(s, x) == Run(s + [g(x)], None)
  {
  }

  /** A loop none of whose steps throws, each appending `g` of its item, appends `g`
      of every item in order. */
  lemma {:induction false} FoldRunMaps<Y, X>(step: (seq<Y>, X) -> Run<seq<Y>>, init: seq<Y>, xs: seq<X>,
                                             ok: X -> bool, g: X -> Y)
    requires forall s, x {:trigger step(s, x)} :: ok(x) ==> step(s, x) == Run(s + [g(x)], None)
    requires forall j :: 0 <= j < |xs| ==> ok(xs[j])
    ensures FoldRun(step, init, xs).error.None?
    ensures var r := FoldRun(step, init, xs).state;
      |r| == |init| + |xs| && r[..|init|] == init && forall j :: 0 <= j < |xs| ==> r[|init| + j] == g(xs[j])
  {
    if xs != [] {
      var n := |xs| - 1;
      assert forall j :: 0 <= j < n ==> xs[..n][j] == xs[j];
      FoldRunMaps(step, init, xs[..n], ok, g);
      var prev := FoldRun(step, init, xs[..n]).state;
      var r := prev + [g(xs[n])];
      MapsStep(step, ok, g, prev, xs[n]);
      assert FoldRun(step, init, xs) == Run(r, None);
      assert forall j :: |init| <= j < |init| + n ==> r[j] == prev[j];
    }
  }

  /** `xs.flatMap(g)` */
  function Concat<X, Y>(g: X -> seq<Y>, xs: seq<X>): seq<Y>
  {
    if xs == [] then [] else Concat(g, xs[..|xs| - 1]) + g(xs[|xs| - 1])
  }

  /** A loop whose every successful step appends `g(x)` to the part `f` of the state
      appends, when it finishes, `g` of every item in order. */
  lemma {:induction false} FoldRunAppends<S, X, Y>(step: (S, X) -> Run<S>, init: S, xs: seq<X>,
                                                   f: S -> seq<Y>, g: X -> seq<Y>)
    requires forall s, x :: step(s, x).error.None? ==> f(step(s, x).state) == f(s) + g(x)
    ensures var r := FoldRun(step, init, xs);
      r.error.None? ==> f(r.state) == f(init) + Concat(g, xs)
  {
    if xs != [] {
      var n := |xs| - 1;
      FoldRunAppends(step, init, xs[..n], f, g);
    }
  }

  /** `xs.reduce(h, a)` */
  function FoldLeft<A, X>(h: (A, X) -> A, a: A, xs: seq<X>): A
  {
    if xs == [] then a else h(FoldLeft(h, a, xs[..|xs| - 1]), xs[|xs| - 1])
  }

  /** Writing each item's value under its key: a key holds the value of the last item
      that wrote it. */
  lemma {:induction false} FoldPutLast<X>(h: (Fields, X) -> Fields, key: X -> string, val: X -> Value,
                                          init: Fields, xs: seq<X>, i: nat)
    requires forall s, x :: h(s, x) == Put(s, key(x), val(x))
    requires i < |xs| && forall j :: i < j < |xs| ==> key(xs[j]) != key(xs[i])
    ensures Lookup(FoldLeft(h, init, xs), key(xs[i])) == val(xs[i])
  {
    var n := |xs| - 1;
    var prev := FoldLeft(h, init, xs[..n]);
    assert FoldLeft(h, init, xs) == Put(prev, key(xs[n]), val(xs[n]));
    if i == n {
      LookupPutSame(prev, key(xs[n]), val(xs[n]));
    } else {
      assert forall j :: i < j < n ==> xs[..n][j] == xs[j];
      assert xs[..n][i] == xs[i];
      FoldPutLast(h, key, val, init, xs[..n], i);
      LookupPutOther(prev, key(xs[n]), val(xs[n]), key(xs[i]));
    }
  }

  lemma LookupPutSame(fields: Fields, key: string, value: Value)
    ensures Lookup(Put(fields, key, value), key) == value
  {
    LookupPut(fields, key, value, key);
  }

  lemma LookupPutOther(fields: Fields, key: string, value: Value, other: string)
    requires other != key
    ensures Lookup(Put(fields, key, value), other) == Lookup(fields, other)
  {
    LookupPut(fields, key, value, other);
  }

  /** ... a key no item writes keeps its value ... */
  lemma {:induction false} FoldPutKeeps<X>(h: (Fields, X) -> Fields, key: X -> string, val: X -> Value,
                                           init: Fields, xs: seq<X>, k: string)
    requires forall s, x :: h(s, x) == Put(s, key(x), val(x))
    requires forall j :: 0 <= j < |xs| ==> key(xs[j]) != k
    ensures Lookup(FoldLeft(h, init, xs), k) == Lookup(init, k)
  {
    if xs != [] {
      var n := |xs| - 1;
      assert forall j :: 0 <= j < n ==> xs[..n][j] == xs[j];
      FoldPutKeeps(h, key, val, init, xs[..n], k);
      LookupPut(FoldLeft(h, init, xs[..n]), key(xs[n]), val(xs[n]), k);
    }
  }

  /** ... and no key appears that no item wrote. */
  lemma {:induction false} FoldPutKeys<X>(h: (Fields, X) -> Fields, key: X -> string, val: X -> Value,
                                          init: Fields, xs: seq<X>)
    requires forall s, x :: h(s, x) == Put(s, key(x), val(x))
    ensures forall k :: k in Keys(FoldLeft(h, init, xs)) ==> k in Keys(init) || exists j :: 0 <= j < |xs| && k == key(xs[j])
  {
    if xs != [] {
      var n := |xs| - 1;
      FoldPutKeys(h, key, val, init, xs[..n]);
      var prev := FoldLeft(h, init, xs[..n]);
      forall k | k in Keys(FoldLeft(h, init, xs))
        ensures k in Keys(init) || exists j :: 0 <= j < |xs| && k == key(xs[j])
      {
        if k !in Keys(prev) {
          assert k == key(xs[n]);
        } else if k !in Keys(init) {
          var j :| 0 <= j < n && k == key(xs[..n][j]);
          assert xs[..n][j] == xs[j];
        }
      }
    }
  }

  /** A loop whose every successful step updates the part `f` of the state by `h`
      ends, when it finishes, with `f` reduced by `h` over the items. */
  lemma {:induction false} FoldRunTracks<S, X, A>(step: (S, X) -> Run<S>, init: S, xs: seq<X>,
                                                  f: S -> A, h: (A, X) -> A)
    requires forall s, x :: step(s, x).error.None? ==> f(step(s, x).state) == h(f(s), x)
    ensures var r := FoldRun(step, init, xs);
      r.error.None? ==> f(r.state) == FoldLeft(h, f(init), xs)
  {
    if xs != [] {
      FoldRunTracks(step, init, xs[..|xs| - 1], f, h);
    }
  }

  /** `v[key]` (or `v.key`): reading a property of `undefined` or `null` crashes. */
  function Get(v: Value, key: string): Result<Value>
  {
    match v
    case Undefined => Err(TypeError("Cannot read properties of undefined"))
    case Null => Err(TypeError("Cannot read properties of null"))
    case Obj(fields) => Ok(Lookup(fields, key))
    case _ => Ok(Undefined)
  }

  /** `v.key` on a value already read from once, so known not to be `undefined` or `null`. */
  function Prop(v: Value, key: string): (r: Value)
    requires !Nullish(v)
    ensures Get(v, key) == Ok(r)
  {
    if v.Obj? then Lookup(v.fields, key) else Undefined
  }

  /** `key in v`: the `in` operator refuses primitives. */
  function Has(v: Value, key: string): Result<bool>
  {
    match v
    case Obj(fields) => Ok(key in Keys(fields))
    case Arr(items) => Ok(key == "length" || exists i :: 0 <= i < |items| && key == NatToString(i))
    case Date(_) => Ok(false)
    case _ => Err(TypeError("Cannot use 'in' operator to search for '" + key + "'"))
  }

  function Digit(d: nat): char
    requires d < 10
  {
    "0123456789"[d]
  }

  function NatToString(n: nat): (r: string)
    ensures |r| > 0
  {
    if n < 10 then [Digit(n)] else NatToString(n / 10) + [Digit(n % 10)]
  }

  /** Digit strings name their numbers: distinct numbers print differently. */
  lemma {:induction false} NatToStringInjective(a: nat, b: nat)
    requires NatToString(a) == NatToString(b)
    ensures a == b
    decreases a
  {
    var sa, sb := NatToString(a), NatToString(b);
    if a < 10 && b < 10 {
      assert Digit(a) == sa[0] == sb[0] == Digit(b);
    } else if a >= 10 && b >= 10 {
      assert Digit(a % 10) == sa[|sa| - 1] == sb[|sb| - 1] == Digit(b % 10);
      assert NatToString(a / 10) == sa[..|sa| - 1] == sb[..|sb| - 1] == NatToString(b / 10);
      NatToStringInjective(a / 10, b / 10);
    }
  }

  function IntToString(n: int): (r: string)
    ensures |r| > 0
  {
    if n < 0 then "-" + NatToString(-n) else NatToString(n)
  }

  /** `${v}`: the text a template literal gives a value. */
  function JsString(v: Value): string
  {
    match v
    case Undefined => "undefined"
    case Null => "null"
    case Bool(b) => if b then "true" else "false"
    case Num(n) => IntToString(n)
    case Str(s) => s
    case Date(iso) => iso
    case Arr(items) => JoinItems(items)
    case Obj(_) => "[object Object]"
  }

  /** `String(array)`: the items joined by ',', with null and undefined as ''. */
  function JoinItems(items: seq<Value>): string
    decreases items
  {
    if items == [] then ""
    else
      var head := if Nullish(items[0]) then "" else JsString(items[0]);
      if |items| == 1 then head else head + "," + JoinItems(items[1..])
  }

  /** `parts.join(sep)` */
  function Join(parts: seq<string>, sep: string): string
  {
    if parts == [] then ""
    else if |parts| == 1 then parts[0]
    else parts[0] + sep + Join(parts[1..], sep)
  }

  /** `s.split(sep)` for a one-character separator. */
  function Split(s: string, sep: char): (r: seq<string>)
    ensures |r| > 0
  {
    if s == [] then [""]
    else
      var rest := Split(s[1..], sep);
      if s[0] == sep then [""] + rest else [[s[0]] + rest[0]] + rest[1..]
  }

  lemma {:induction false} SplitPieces(s: string, sep: char)
    ensures forall p :: p in Split(s, sep) ==> sep !in p
    ensures Join(Split(s, sep), [sep]) == s
  {
    if s != [] {
      var rest := Split(s[1..], sep);
      SplitPieces(s[1..], sep);
      if s[0] == sep {
        assert Split(s, sep) == [""] + rest;
      } else {
        var r := Split(s, sep);
        assert r == [[s[0]] + rest[0]] + rest[1..];
        if |rest| == 1 {
          assert Join(r, [sep]) == [s[0]] + rest[0];
        } else {
          assert Join(rest, [sep]) == rest[0] + [sep] + Join(rest[1..], [sep]);
          assert Join(r, [sep]) == [s[0]] + rest[0] + [sep] + Join(rest[1..], [sep]);
        }
        assert forall p :: p in r ==> p == [s[0]] + rest[0] || p in rest;
      }
    }
  }

  /** A piece without the separator splits into itself. */
  lemma {:induction false} SplitNoSep(a: string, sep: char)
    requires sep !in a
    ensures Split(a, sep) == [a]
  {
    if a != [] {
      SplitNoSep(a[1..], sep);
      assert [a[0]] + a[1..] == a;
    }
  }

  /** Splitting stops at the first separator. */
  lemma {:induction false} SplitAt(a: string, sep: char, t: string)
    requires sep !in a
    ensures Split(a + [sep] + t, sep) == [a] + Split(t, sep)
  {
    var s := a + [sep] + t;
    if a == [] {
      assert s[0] == sep && s[1..] == t;
    } else {
      assert s[0] == a[0] && s[1..] == a[1..] + [sep] + t;
      SplitAt(a[1..], sep, t);
      assert [a[0]] + a[1..] == a;
    }
  }

  /** Joining pieces that hold no separator and splitting again gives the pieces back. */
  lemma {:induction false} SplitJoin(parts: seq<string>, sep: char)
    requires |parts| > 0 && forall p :: p in parts ==> sep !in p
    ensures Split(Join(parts, [sep]), sep) == parts
  {
    if |parts| == 1 {
      SplitNoSep(parts[0], sep);
    } else {
      SplitJoin(parts[1..], sep);
      SplitAt(parts[0], sep, Join(parts[1..], [sep]));
    }
  }

  /** `s.replace(ch, rep)` with a string pattern: only the first occurrence changes. */
  function ReplaceFirst(s: string, ch: char, rep: string): string
  {
    if s == [] then []
    else if s[0] == ch then rep + s[1..]
    else [s[0]] + ReplaceFirst(s[1..], ch, rep)
  }

  /** `s.replace(/ch/g, rep)`: every occurrence changes. */
  function ReplaceAll(s: string, ch: char, rep: string): string
  {
    if s == [] then []
    else (if s[0] == ch then rep else [s[0]]) + ReplaceAll(s[1..], ch, rep)
  }

  /** The number of times `ch` occurs in `s`. */
  function Count(s: string, ch: char): nat
  {
    if s == [] then 0 else (if s[0] == ch then 1 else 0) + Count(s[1..], ch)
  }

  /** Doubling with `ReplaceFirst` leaves every quote after the first one single. */
  lemma {:induction false} ReplaceFirstCount(s: string)
    ensures Count(ReplaceFirst(s, '\'', "''"), '\'') == if Count(s, '\'') == 0 then 0 else Count(s, '\'') + 1
  {
    if s != [] {
      if s[0] == '\'' {
        CountAppend("''", s[1..], '\'');
      } else {
        ReplaceFirstCount(s[1..]);
        CountAppend([s[0]], ReplaceFirst(s[1..], '\'', "''"), '\'');
      }
    }
  }

  /** Doubling with `ReplaceAll` doubles every quote. */
  lemma {:induction false} ReplaceAllCount(s: string)
    ensures Count(ReplaceAll(s, '\'', "''"), '\'') == 2 * Count(s, '\'')
  {
    if s != [] {
      ReplaceAllCount(s[1..]);
      CountAppend(if s[0] == '\'' then "''" else [s[0]], ReplaceAll(s[1..], '\'', "''"), '\'');
    }
  }

  lemma {:induction false} CountAppend(a: string, b: string, ch: char)
    ensures Count(a + b, ch) == Count(a, ch) + Count(b, ch)
  {
    if a != [] {
      var ab := a + b;
      assert ab[0] == a[0] && ab[1..] == a[1..] + b;
      CountAppend(a[1..], b, ch);
      assert Count(ab, ch) == (if a[0] == ch then 1 else 0) + Count(a[1..] + b, ch);
    } else {
      assert a + b == b;
    }
  }

  /** `s.startsWith(prefix)` */
  predicate StartsWith(s: string, prefix: string)
  {
    |prefix| <= |s| && s[..|prefix|] == prefix
  }

  /** `s.endsWith(suffix)` */
  predicate EndsWith(s: string, suffix: string)
  {
    |suffix| <= |s| && s[|s| - |suffix|..] == suffix
  }

  lemma EndsWithSelf(s: string, t: string)
    ensures EndsWith(s + t, t)
  {
    assert (s + t)[|s + t| - |t|..] == t;
  }

  /** A four-part string starts with its first part. */
  lemma StartsWithFirst(x: string, a: string, b: string, c: string, d: string)
    ensures StartsWith(x + a + b + c + d, x)
  {
    assert (x + a + b + c + d)[..|x|] == x;
  }

  /** A four-part string ends with its last three parts. */
  lemma EndsWithLast(x: string, a: string, b: string, c: string)
    ensures EndsWith(x + a + b + c, a + b + c)
  {
    var s := x + a + b + c;
    assert s[|s| - |a + b + c|..] == a + b + c;
  }

  /** Cutting a three-part sequence at the part boundaries gives the parts back. */
  lemma Parts<T>(x: seq<T>, y: seq<T>, z: seq<T>)
    ensures (x + y + z)[..|x| + |y|] == x + y
    ensures (x + y + z)[..|x|] == x
    ensures (x + y + z)[|x|..|x| + |y|] == y
    ensures (x + y + z)[|x| + |y|..] == z
  {
    assert (x + y + z)[..|x| + |y|] == x + y;
    assert (x + y)[|x|..] == y;
  }

  /** A prefix made of two parts: cutting it at the boundary gives the parts back. */
  lemma Segment<T>(o: seq<T>, x: seq<T>, y: seq<T>, j: nat)
    requires j == |x| + |y| <= |o| && o[..j] == x + y
    ensures o[..|x|] == x && o[|x|..j] == y
  {
    assert o[..|x|] == o[..j][..|x|];
    assert o[|x|..j] == o[..j][|x|..];
  }

  lemma StartsWithConcat(a: string, b: string, prefix: string)
    requires StartsWith(a, prefix)
    ensures StartsWith(a + b, prefix)
  {
    assert (a + b)[..|prefix|] == a[..|prefix|];
  }

  /** Two prefixes of one string agree wherever both are defined. */
  lemma PrefixClash(s: string, a: string, b: string, i: nat)
    requires StartsWith(s, a) && StartsWith(s, b) && i < |a| && i < |b|
    ensures a[i] == b[i]
  {
    assert s[..|a|][i] == s[i];
    assert s[..|b|][i] == s[i];
  }

  lemma JoinHead(parts: seq<string>, sep: string, prefix: string)
    requires |parts| > 0 && StartsWith(parts[0], prefix)
    ensures StartsWith(Join(parts, sep), prefix)
  {
    if |parts| > 1 {
      assert Join(parts, sep) == parts[0] + (sep + Join(parts[1..], sep));
      StartsWithConcat(parts[0], sep + Join(parts[1..], sep), prefix);
    }
  }

  /** `Object.getOwnPropertyNames(v)` paired with `v[name]`: an object's own properties;
      `undefined` and `null` cannot be converted to an object. Other values are taken to
      have none. */
  function OwnProperties(v: Value): (r: Result<Fields>)
    ensures r.Err? <==> Nullish(v)
    ensures v.Obj? ==> r == Ok(v.fields)
  {
    match v
    case Undefined => Err(TypeError("Cannot convert undefined or null to object"))
    case Null => Err(TypeError("Cannot convert undefined or null to object"))
    case Obj(fields) => Ok(fields)
    case _ => Ok([])
  }

  /** `{ ...target, ...source }`: the source's properties assigned in order over the
      target's. */
  function Assign(target: Fields, source: Fields): Fields
  {
    if source == [] then target
    else Put(Assign(target, source[..|source| - 1]), source[|source| - 1].0, source[|source| - 1].1)
  }
}
