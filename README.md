# driver-mssql in Dafny

This project models the query-building and result-converting core of the
`@adurc/driver-mssql` driver. The driver turns adurc model requests (find,
aggregate, create, update and delete, with `where`, `select`, `include`,
`orderBy`, `skip` and `take` arguments) into Transact-SQL batches. It then turns
the recordsets the server sends back into nested result objects. The model states
the shape of the generated text, the bound parameters and the materialised objects.
It proves those properties for all inputs.

The source tree holds three generations of builders side by side. Each is modelled
from its own files:

- **The `src/query-builders` builders.** `find.builder.ts` and `where.builder.ts`
  fill a find context, and `find.context.ts` renders it. The aggregate, delete,
  update and create builders fill their own contexts (`*.context.ts`).
- **The `find.query-builder.ts` builder** and the context it fills,
  `context.query-builder.ts`.
- **The older builders at the top of `src`.** These are `criteria-builder.ts`
  with `query-print.ts`, `create-builder.ts`, `update-builder.ts`,
  `aggregate-builder.ts` and `entity-transformer.ts`.

The converters are modelled too: `entity.converter.ts` (adurc models to MSSQL
entities), `recordset.converter.ts` (recordsets to result objects) and
`object-expander.ts` (flat, dotted rows to nested objects).

JavaScript values are one datatype, `Js.Value`. An object is its list of own
properties in enumeration order. `for…in`, property reads and writes, truthiness,
strict equality and template-literal printing are defined once in `js.dfy`. Errors
the driver throws on purpose are `Raised(message)`. Property reads on `undefined`,
which the runtime turns into a crash, are `TypeError(message)`.

The code is modelled in the form the code takes:

- **Contexts are classes.** Each context object the builders update in place
  (`FindContextQueryBuilder`, `AggregateContextQueryBuilder`, …) is a class with
  those fields.
- **Builder loops are methods.** Every builder loop that pushes into a context is
  a method with loop invariants. Each method is proved equal to a specification
  function, such as `FindBuilder.BuildPlan` or `UpdateBuilder.UpdatePlanOf`.
- **Renderers are functions plus methods.** Every `toSql` is a function that gives
  the list of lines, and a method that builds it chunk by chunk. The lemmas in
  the `*Props` modules state what the text contains, in which order, and when
  rendering throws.

Each `*_props.dfy` file holds the properties of the file of the same stem.

## Model

| member | source | states |
|---|---|---|
| FindBuilder.BuildTableAccessor | src/query-builders/find.builder.ts:27-38 | the accessor keeps the table and alias; a database or schema is set exactly when the argument is a non-empty string, and then it is that string |
| FindBuilder.AllRefs | src/query-builders/find.builder.ts:232-239 | a many-to-one include of `true` projects every join-entity column, in entity order, one per column |
| FindBuilder.SelectColumns | src/query-builders/find.builder.ts:52-66 | the select loop's columns and error are those of the select fold, whose meaning `FindBuilderProps.SelectFold` states |
| FindBuilder.CollectOrderBy | src/query-builders/find.builder.ts:40-50 | the orderBy loop's orders and error are those of the order fold (`FindBuilderProps.OrderFold`) |
| FindBuilder.BuildOrderBy | src/query-builders/find.builder.ts:40-50 | `buildOrderBy` appends the orders of the fold to the context and changes nothing else |
| FindBuilder.BuildManyToOne | src/query-builders/find.builder.ts:207-254 | the context after `buildManyToOne` is the plan `FindBuilderProps.ManyToOneShape` describes |
| FindBuilder.PushChild | src/query-builders/find.builder.ts:134-148 | a to-many child gets the `value.select` columns that are `true` and is then pushed on the parent, or the loop throws and nothing is pushed |
| FindBuilder.BuildManyToMany | src/query-builders/find.builder.ts:94-149 | the context after `buildManyToMany` is the plan `FindBuilderProps.ManyToManyShape` describes |
| FindBuilder.BuildOneToMany | src/query-builders/find.builder.ts:151-205 | the context after `buildOneToMany` is the plan `FindBuilderProps.OneToManyShape` describes, including the `Expected select object` throw |
| FindBuilder.BuildRelation | src/query-builders/find.builder.ts:78-90 | the switch dispatches by relation kind to the three builders |
| FindBuilder.BuildInclude | src/query-builders/find.builder.ts:68-92 | the include loop skips `false`, throws reading `type` of a missing relation, and otherwise runs the relation's builder, entry by entry |
| FindBuilder.Build | src/query-builders/find.builder.ts:12-25 | `build` returns a fresh context exactly when the plan compiles, holding that plan; otherwise the error thrown |
| FindBuilderProps.SelectFold | src/query-builders/find.builder.ts:52-66 | a select succeeds exactly when every kept key names a column; it then appends one column per kept key, in key order, aliased by the field name; otherwise it throws reading `columnName` |
| FindBuilderProps.OrderFold | src/query-builders/find.builder.ts:40-50 | orderBy succeeds exactly when every key is a column; it then appends one `root` order per key, in key order, `DESC` exactly for the string `desc` |
| FindBuilderProps.ManyToOneShape | src/query-builders/find.builder.ts:207-254 | one join is added, inner exactly when the relation is non-null, aliased by the relation name and matching its inverse column with the root join column; its columns are aliased `<relation>.<field>` (all for `true`, else the keys that are not `false`) |
| FindBuilderProps.ChildRunShape | src/query-builders/find.builder.ts:95-101 | staging sets `into` to `#main`, appends exactly the temporal column `__<joinColumn>`, and a child is appended exactly when its select succeeds |
| FindBuilderProps.ManyToManyShape | src/query-builders/find.builder.ts:94-149 | the child reads the link entity as `many`, joins `#main` as `parent` and then the target entity as `root`, both inner, on the columns the relation names |
| FindBuilderProps.OneToManyShape | src/query-builders/find.builder.ts:151-205 | the child reads the target entity as `root` and joins `#main` as `parent`; without a `select` key it throws `Expected select object` after staging |
| FindBuilderProps.RelationExtends | src/query-builders/find.builder.ts:78-90 | a relation include, succeeding or not, leaves params, where, orderBy, from, skip and take alone and only appends to columns, joins, temporal columns and children |
| FindBuilderProps.IncludeExtends | src/query-builders/find.builder.ts:68-92 | the same for the whole include loop |
| FindBuilderProps.BuildShape | src/query-builders/find.builder.ts:12-25 | the root is read as `root`; skip and take are copied; the selected columns come first; absent where, orderBy and include leave no trace; reading the arguments of null or undefined throws |
| WhereBuilder.BindInValues | src/query-builders/where.builder.ts:35-39 | binds each list value under its indexed key and returns one variable per value, in order |
| WhereBuilder.BuildOperators | src/query-builders/where.builder.ts:25-43 | the operator loop's parameters, conditions and error are those of the operator fold |
| WhereBuilder.BuildField | src/query-builders/where.builder.ts:11-52 | one field's effect on parameters and conditions, and its error, are those of the field step |
| WhereBuilder.BuildWhere | src/query-builders/where.builder.ts:7-54 | `buildWhere` leaves the context's parameters and conditions, and its error, as the where fold gives them, and changes nothing else |
| WhereBuilder.ConditionsToSql | src/query-builders/where.builder.ts:56-67 | the loop gives the rendering `WhereBuilder.ConditionLines` describes |
| WhereBuilder.IndexedKeyInjective | src/query-builders/where.builder.ts:36 | two positions of an `in` list never share a parameter name |
| WhereBuilder.BindInHit | src/query-builders/where.builder.ts:35-38 | after binding a list, `<key>_<i>` holds the i-th value |
| WhereBuilder.BindInMiss | src/query-builders/where.builder.ts:35-38 | binding a list leaves every other parameter as it was |
| WhereBuilder.ScalarFilter | src/query-builders/where.builder.ts:19-23 | a non-object value binds `<source>_<field>` (or `<field>` with no source) to the value, leaves other parameters alone, and pushes one `=` condition on that variable |
| WhereBuilder.InFilter | src/query-builders/where.builder.ts:33-41 | `in` with n values binds `<key>_0` … `<key>_{n-1}` in order and pushes one `in` condition listing those variables in that order |
| WhereBuilder.InNeedsArray | src/query-builders/where.builder.ts:34 | `in` with anything but an array throws `Expected on operator "in" an array` and changes nothing |
| WhereBuilder.EqualsBindsObject | src/query-builders/where.builder.ts:29-32 | `equals` binds the whole operator object, not the value inside it |
| WhereBuilder.OtherOperatorsIgnored | src/query-builders/where.builder.ts:28-42 | operators other than `equals` and `in` add nothing |
| WhereBuilder.FieldErrors | src/query-builders/where.builder.ts:12-15 | `_AND` and `_OR` throw; a field that is neither column nor relation throws `Unknown field name`; a relation field adds nothing |
| WhereBuilder.WhereRunWellFormed | src/query-builders/where.builder.ts:23-40 | every condition the builder pushes is a leaf whose operator is `in` exactly when its right side is a list |
| WhereBuilder.WhereCondSqlAgrees | src/query-builders/where.builder.ts:88-100 | on such a condition, `toSqlCondition` prints an `in` list as `(a,b,…)` |
| WhereBuilder.ConditionLines | src/query-builders/where.builder.ts:56-67 | rendering succeeds exactly when every condition is a leaf that renders, and then gives one tab-prefixed line per condition, in order |
| WhereBuilder.BuiltConditionsRender | src/query-builders/where.builder.ts:7-67 | the conditions `buildWhere` produces always render |
| FindContext.OrderItems | src/query-builders/find.context.ts:138 | one `<column> ASC` or `<column> DESC` item per order, in order |
| FindContext.ColumnLines | src/query-builders/find.context.ts:101-108 | one tab-prefixed column line per column, in order |
| FindContext.CondLines | src/query-builders/find.context.ts:120-122 | one tab-prefixed condition line per join condition, in order |
| FindContext.ReselectLines | src/query-builders/find.context.ts:149-152 | one line per projected column naming its alias in brackets (`[undefined]` when it has none) |
| FindContext.ChildChunks | src/query-builders/find.context.ts:160-163 | every child statement is preceded by a blank chunk, in order |
| FindContext.ColumnListSql | src/query-builders/find.context.ts:101-110 | the column list is the projected, then the temporal, column lines joined by `,\n` |
| FindContext.CondSection | src/query-builders/find.context.ts:120-122 | the loop gives the lines `FindContext.CondLines` describes |
| FindContext.JoinSection | src/query-builders/find.context.ts:118-123 | one `<TYPE> JOIN <accessor> ON` chunk per join, then its condition lines |
| FindContext.WhereSection | src/query-builders/find.context.ts:125-135 | a subtree condition throws `Not implemented subtree conditions`; otherwise one line per leaf |
| FindContext.LeafSection | src/query-builders/find.context.ts:131-133 | one tab-prefixed line per leaf condition |
| FindContext.ReselectSql | src/query-builders/find.context.ts:149-156 | the re-select list holds the alias line of every projected column |
| FindContext.HeadSection | src/query-builders/find.context.ts:95-116 | `SELECT`, `TOP` when only take is given, the column list, `INTO` when set, then `FROM` |
| FindContext.TailSection | src/query-builders/find.context.ts:137-158 | the ordering and paging lines, then the re-select of a plan with `into` |
| FindContext.ChildrenSection | src/query-builders/find.context.ts:160-163 | every child is rendered in order, stopping at the first that throws (`FindContextProps.CollectAll`) |
| FindContext.WhereBlock | src/query-builders/find.context.ts:125-135 | no WHERE block without conditions; otherwise `WHERE` and the lines, or the subtree error |
| FindContext.RenderPlan | src/query-builders/find.context.ts:84-166 | `toSql` gives the text or the error of the rendering function, whose meaning the lemmas below state |
| FindContext.FindContextQueryBuilder.constructor | src/query-builders/find.context.ts:72-82 | a new context holds the empty plan |
| FindContext.FindContextQueryBuilder.ToSql | src/query-builders/find.context.ts:84-166 | renders the context's current plan |
| FindContextProps.LinesParts | src/query-builders/find.context.ts:84-166 | a plan that renders has a projection, a `from` and no subtree; its chunks are head, joins, where, tail and children, in that order |
| FindContextProps.CollectAll | src/query-builders/find.context.ts:160-163 | collecting the children succeeds exactly when each one renders; it then holds each child's text in order, and otherwise fails with the first child's error |
| FindContextProps.FindSqlErrors | src/query-builders/find.context.ts:85-91 | `toSql` throws `Required at least one column projection`, then `Required from`, then the subtree error, in that order |
| FindContextProps.RenderableIff | src/query-builders/find.context.ts:84-166 | a plan renders exactly when it and every descendant have a projection, a `from` and no subtree condition |
| FindContextProps.StartsWithSelect | src/query-builders/find.context.ts:95 | every rendered statement starts with `SELECT` |
| FindContextProps.HeadTop | src/query-builders/find.context.ts:95-99 | the second head chunk is `TOP <take>` exactly when skip is undefined and take is defined |
| FindContextProps.TopClause | src/query-builders/find.context.ts:97-99 | the same for the second line of the whole statement |
| FindContextProps.JoinColumns | src/query-builders/find.context.ts:101-110 | the column list starts with a tab and a bracket |
| FindContextProps.HeadInto | src/query-builders/find.context.ts:110-116 | `INTO <into>` follows the column list exactly when `into` is set, and the head ends with the FROM accessor |
| FindContextProps.IntoClause | src/query-builders/find.context.ts:110-116 | the same on the whole statement's lines, with FROM right after INTO or the column list |
| FindContextProps.ChildTextsAre | src/query-builders/find.context.ts:160-163 | every child of a rendered plan renders, and its text is that child's SQL |
| FindContextProps.ChildrenClause | src/query-builders/find.context.ts:160-163 | the statement ends with the children in order, each after a blank line |
| FindContextProps.ReselectClause | src/query-builders/find.context.ts:148-158 | with `into` set, the four lines before the children re-select the projected columns by alias from the staging table; temporal columns are not re-selected |
| FindContextProps.OrderLines | src/query-builders/find.context.ts:137-146 | the ordering section holds ORDER BY exactly with an ordering, OFFSET exactly when a skip is added, FETCH NEXT exactly when a take is added too |
| FindContextProps.PaginationClauses | src/query-builders/find.context.ts:137-146 | the same on the whole statement: a skip or take without an ordering leaves no paging clause |
| FindContextProps.TableAccessorShape | src/query-builders/find.context.ts:193-200 | a table accessor ends with the lock hint exactly when it has an alias, and starts with the database, else the schema, else the table |
| FindContextProps.TemporalAccessorShape | src/query-builders/find.context.ts:202-206 | a temporal accessor starts with the bare object name and has no lock hint |
| FindContextProps.ObjectJoinLosesName | src/query-builders/find.context.ts:202-206 | a join on the `{type: 'object', name}` accessor prints `undefined` whatever its name |
| FindContextProps.StringSideQuotes | src/query-builders/find.context.ts:171-172 | a string side doubles only its first quote |
| FindContextProps.ColumnSideShape | src/query-builders/find.context.ts:173-181 | a column side is bracketed, with the source prefix exactly when a source is given |
| FindContextProps.InConditionUndefined | src/query-builders/find.context.ts:187-191 | as written, every list right side prints `undefined`, and never what the intended renderer prints |
| FindContextProps.SingleConditionAgrees | src/query-builders/find.context.ts:187-191 | with a single right side, the as-written and the intended renderers agree |
| FindContextProps.InListRoundTrip | src/query-builders/where.builder.ts:92-93 | the intended renderer writes the list between parentheses; splitting inside them at commas gives back every rendered side, in order |
| AggregateBuilder.BuildAgrRequest | src/query-builders/aggregate.builder.ts:30-44 | the loop's list or error is the aggregate fold's (`AggregateProps.AgrFold`) |
| AggregateBuilder.BuildHead | src/query-builders/aggregate.builder.ts:11-20 | the context after the part of `build` before the aggregate lists is the head plan, or the call fails with its error |
| AggregateBuilder.BuildFilter | src/query-builders/aggregate.builder.ts:13-17 | table, skip, take and the where builder's filters as the filter plan gives them, or its error |
| AggregateBuilder.BuildAggregates | src/query-builders/aggregate.builder.ts:22-25 | the four lists or the first error, as `AggregateProps.AggregatesShape` states |
| AggregateBuilder.Build | src/query-builders/aggregate.builder.ts:10-28 | a fresh context exactly when the plan compiles, holding that plan; otherwise the error thrown |
| AggregateContext.AggregateLines | src/query-builders/aggregate.context.ts:46-60 | one `<FN>(<column>) AS [<alias>]` line per column, in order |
| AggregateContext.AggregateSection | src/query-builders/aggregate.context.ts:46-60 | one aggregate loop gives those lines |
| AggregateContext.OutputColumnsSql | src/query-builders/aggregate.context.ts:40-62 | the output list is COUNT, AVG, MAX, MIN, SUM lines joined by `,\n` |
| AggregateContext.AggregateContextQueryBuilder.constructor | src/query-builders/aggregate.context.ts:17-25 | a new context holds the empty aggregate plan; `from` is left unassigned |
| AggregateContext.AggregateContextQueryBuilder.SetPaging | src/query-builders/aggregate.builder.ts:14-15 | skip and take are copied and nothing else changes |
| AggregateContext.AggregateContextQueryBuilder.SetFilters | src/query-builders/aggregate.builder.ts:17 | params and where are replaced and nothing else changes |
| AggregateContext.AggregateContextQueryBuilder.SetAggregates | src/query-builders/aggregate.builder.ts:22-25 | the four lists are replaced and nothing else changes |
| AggregateContext.AggregateContextQueryBuilder.ToSql | src/query-builders/aggregate.context.ts:27-90 | renders the context's current plan |
| AggregateProps.AgrFold | src/query-builders/aggregate.builder.ts:30-44 | the list succeeds exactly when every key is a column; it then holds one `root` column aliased `<type>.<field>` per key, in order; otherwise it throws `Invalid field: <field>…` for the first key that is not a column |
| AggregateProps.HeadShape | src/query-builders/aggregate.builder.ts:10-20 | root table, skip and take copied, `count` exactly when `args.count === true`, no filters or ordering when those are falsy, empty aggregate lists; reading null or undefined arguments throws |
| AggregateProps.AggregatesShape | src/query-builders/aggregate.builder.ts:22-25 | the four lists build exactly when every key of the avg, max, min and sum requests is a column; each list then holds one root column per key, in key order, aliased `<type>.<field>`, and is empty for an undefined request; otherwise the error is that of the first failing request in the order avg, max, min, sum |
| AggregateProps.RequestShape | src/query-builders/aggregate.builder.ts:30-44 | one request list builds exactly when every key is a column, holding one root column per key aliased `<type>.<field>`; an undefined request gives the empty list |
| AggregateProps.AggregateBuildShape | src/query-builders/aggregate.builder.ts:10-28 | a head error is the result; otherwise the first aggregate error; otherwise the head plan with the four lists |
| AggregateProps.OutputOrder | src/query-builders/aggregate.context.ts:40-62 | the output lines are COUNT (when set), then the AVG, MAX, MIN and SUM lines, in that order |
| AggregateProps.AggregateLineShape | src/query-builders/aggregate.context.ts:47 | an aggregate line is `<FN>(` the bare column `) AS `, whatever the alias; the column carries no alias inside the call |
| AggregateProps.AggregateErrors | src/query-builders/aggregate.context.ts:28-30 | rendering fails exactly when `from` is not an accessor or a subtree condition is present: `null` throws `Required from`, an unassigned `from` throws a TypeError |
| AggregateProps.FirstOutput | src/query-builders/aggregate.context.ts:42-60 | every output line starts with a tab and C, A, M or S |
| AggregateProps.AggregateTop | src/query-builders/aggregate.context.ts:34-38 | the statement starts with SELECT, and `TOP <take>` is the second line exactly when skip is undefined and take is defined |
| AggregateProps.AggregatePaging | src/query-builders/aggregate.context.ts:78-87 | ORDER BY exactly with an ordering, OFFSET exactly when a skip is added, FETCH NEXT exactly when a take is added too |
| AggregateProps.NoJoins | src/query-builders/aggregate.context.ts:27-90 | an aggregate statement has no JOIN and no INTO line |
| DeleteBuilder.BuildHead | src/query-builders/delete.builder.ts:10-14 | the context after the where builder and the entity assignment is the head plan, or the call fails with its error |
| DeleteBuilder.BuildReturning | src/query-builders/delete.builder.ts:16-20 | the staging table and read-back plan are set as the returning function gives them, or its error |
| DeleteBuilder.Build | src/query-builders/delete.builder.ts:9-23 | a fresh context exactly when the plan compiles, holding that plan; otherwise the error thrown |
| DeleteContext.DeclareLines | src/query-builders/delete.context.ts:28-29 | one `[<field>] <type>` line per primary key, in order |
| DeleteContext.InsertedColumns | src/query-builders/delete.context.ts:39 | one `INSERTED.[<column>]` per primary key, in order |
| DeleteContext.DeclareSection | src/query-builders/delete.context.ts:28-29 | the map/forEach gives those lines |
| DeleteContext.OutputColumnsSql | src/query-builders/delete.context.ts:39 | the output list is those columns joined by `,` |
| DeleteContext.ReturningSection | src/query-builders/delete.context.ts:57-59 | a blank line and the read-back statement, or its error, or nothing without one |
| DeleteContext.DeleteContextQueryBuilder.constructor | src/query-builders/delete.context.ts:15-21 | a new context holds the empty delete plan, with no entity |
| DeleteContext.DeleteContextQueryBuilder.SetFilters | src/query-builders/delete.builder.ts:12 | params and where are replaced and nothing else changes |
| DeleteContext.DeleteContextQueryBuilder.ToSql | src/query-builders/delete.context.ts:23-62 | renders the context's current plan |
| DeleteProps.LengthArgMax | src/query-builders/delete.context.ts:96-98 | the length argument is `MAX` exactly when the length is missing or above the ceiling, and otherwise the length itself |
| DeleteProps.DeclareHead | src/query-builders/delete.context.ts:89-113 | a declaration starts with the type's own declaration; other types take it bare, the rest end with `)` |
| DeleteProps.VariableLengths | src/query-builders/delete.context.ts:94-98 | VarChar and VarBinary take `(MAX)` exactly above 8000 or without a length, NVarChar exactly above 4000 or without one; otherwise the length |
| DeleteProps.DeclareDefaults | src/query-builders/delete.context.ts:99-109 | defaults: `(1)` for Char, NChar and Binary, `(18, 0)` for Decimal and Numeric, `(7)` for Time, DateTime2 and DateTimeOffset |
| DeleteProps.TargetShape | src/query-builders/delete.context.ts:34-37 | the target ends with `[<table>] WITH(ROWLOCK)` and starts with the database, else the schema, else the table |
| DeleteProps.DeleteErrors | src/query-builders/delete.context.ts:23-62 | a missing entity throws a TypeError, a subtree condition throws, a read-back error propagates; otherwise it renders, and in no other case |
| DeleteProps.LinesParts | src/query-builders/delete.context.ts:23-62 | the chunks are the DECLARE block, the DELETE line, OUTPUT, WHERE and the read-back, in that order |
| DeleteProps.DeclareBlock | src/query-builders/delete.context.ts:26-32 | with a staging table the statement opens `DECLARE <t> AS TABLE(`, one line per key, `)`, a blank, then the DELETE line |
| DeleteProps.NoStaging | src/query-builders/delete.context.ts:41-46 | without a staging table the DELETE line comes first, followed by WHERE or the read-back's blank line |
| DeleteProps.OutputBeforeWhere | src/query-builders/delete.context.ts:41-46 | with a staging table the OUTPUT line follows the DELETE line, before any WHERE |
| DeleteProps.ReturningLast | src/query-builders/delete.context.ts:57-59 | a read-back statement is the last line, after a blank; without read-back or conditions the last line is OUTPUT or DELETE |
| UpdateBuilder.KeyConditions | src/query-builders/update.builder.ts:46-58 | one `[sourceData].[pk] = [<alias>].[pk]` condition per primary key, in order |
| UpdateBuilder.MapRow | src/query-builders/update.builder.ts:19-36 | one row's column values or its error, as `MutationBuilderProps.RowErrors`/`RowWrites` state |
| UpdateBuilder.BuildHead | src/query-builders/update.builder.ts:11-37 | the context after the where builder, the entity, the keys and the rows is the head plan, or its error |
| UpdateBuilder.BuildReturning | src/query-builders/update.builder.ts:39-62 | the staging table and the read-back plan, joined first to the staged keys, or its error |
| UpdateBuilder.Build | src/query-builders/update.builder.ts:10-65 | a fresh context exactly when the plan compiles, holding that plan; otherwise the error thrown |
| UpdateContext.SetLines | src/query-builders/update.context.ts:44-46 | one `[<column>] = <value>` line per own property of `set`, in order |
| UpdateContext.UpdateDeclareLines | src/query-builders/update.context.ts:31 | one declare line per primary key, named by its accessor name |
| UpdateContext.UpdateDeclareSection | src/query-builders/update.context.ts:31-32 | the map/forEach gives those lines |
| UpdateContext.SetSql | src/query-builders/update.context.ts:46 | the SET list is those lines joined by `,\n` |
| UpdateContext.UpdateContextQueryBuilder.constructor | src/query-builders/update.context.ts:17-24 | a new context holds the empty update plan |
| UpdateContext.UpdateContextQueryBuilder.SetFilters | src/query-builders/update.builder.ts:13 | params and where are replaced and nothing else changes |
| UpdateContext.UpdateContextQueryBuilder.ToSql | src/query-builders/update.context.ts:26-60 | renders the context's current plan |
| UpdateProps.UndoubleDoubled | src/query-builders/update.context.ts:66 | doubling every quote is undone by halving quote pairs |
| UpdateProps.StringLiteral | src/query-builders/update.context.ts:65-66 | a string value prints as a quoted literal whose inside has every quote doubled and reads back as the string |
| UpdateProps.StringLiteralInjective | src/query-builders/update.context.ts:65-66 | distinct strings print as distinct literals |
| UpdateProps.SqlValueKinds | src/query-builders/update.context.ts:62-70 | numbers print as themselves, strings and dates as quoted literals (dates as their ISO text), anything else as `undefined` |
| UpdateProps.SetItemsInOrder | src/query-builders/update.context.ts:44-46 | with distinct keys the SET list has one `[key] = <value>` line per assignment, in insertion order |
| UpdateProps.UpdateErrors | src/query-builders/update.context.ts:26-60 | a missing entity throws a TypeError; a WHERE or read-back error propagates; otherwise it renders, and in no other case |
| UpdateProps.LinesParts | src/query-builders/update.context.ts:26-60 | DECLARE block, UPDATE line, SET list, OUTPUT, WHERE and the read-back, in that order |
| UpdateProps.DeclareBlock | src/query-builders/update.context.ts:29-35 | with a staging table the statement opens with the DECLARE block, one line per key, then the UPDATE line |
| UpdateProps.SetThenOutputThenWhere | src/query-builders/update.context.ts:45-53 | UPDATE, then SET, then OUTPUT when staging, then WHERE and the rendered conditions |
| UpdateProps.ReturningLast | src/query-builders/update.context.ts:55-57 | a read-back statement is the last line, after a blank; otherwise the last line is OUTPUT or the SET list |
| Returning.HasProjection | src/query-builders/update.builder.ts:39 | on an object, true exactly when it has a `select` or `include` key; the `in` test throws on primitives |
| Returning.Projection | src/query-builders/update.builder.ts:41 | the read-back request holds exactly `select` and `include`, copied from the arguments |
| MutationBuilderProps.RowErrors | src/query-builders/update.builder.ts:21-34 | a row succeeds exactly when every field is a column; the first field that is not throws `Pending implementation create relations` or `Unexpected field name` |
| MutationBuilderProps.RowWrites | src/query-builders/update.builder.ts:24-25 | a row holds each field's value under its column name, the last write winning |
| MutationBuilderProps.RowKeeps | src/query-builders/update.builder.ts:19-25 | a row writes no key that no field's column names |
| MutationBuilderProps.RowKeys | src/query-builders/update.builder.ts:19-25 | every key of a row is the column of one of its fields |
| MutationBuilderProps.RowsFold | src/query-builders/update.builder.ts:18-37 | the rows succeed exactly when every item does; one row per item, in order |
| MutationBuilderProps.UpdateBuildShape | src/query-builders/update.builder.ts:10-65 | entity and primary keys are set; one row per data item in order; no filters without `where`; staging and read-back exactly when `select` or `include` is given, the read-back joined first to `@outputData` on the keys |
| MutationBuilderProps.UpdateHeadShape | src/query-builders/update.builder.ts:11-37 | the same for the part before the read-back, with no staging yet |
| MutationBuilderProps.UpdateReturningShape | src/query-builders/update.builder.ts:39-62 | the read-back part changes only the staging table and the read-back plan |
| MutationBuilderProps.SourceJoinShape | src/query-builders/update.builder.ts:42-61 | the staged-keys join is inner on `@outputData AS [sourceData]`, one condition per key |
| MutationBuilderProps.DeleteBuildShape | src/query-builders/delete.builder.ts:9-23 | entity set, no keys, no filters without `where`; staging and read-back exactly when `select` or `include` is given, the read-back reading `@outputData` as `root` |
| MutationBuilderProps.DeleteProjectionOnObjects | src/query-builders/delete.builder.ts:16 | on primitive arguments the `in` test throws a TypeError |
| MutationBuilderProps.CreateRowFold | src/query-builders/create.builder.ts:15-32 | a data item passes exactly when every field is a column or a relation |
| MutationBuilderProps.CheckFold | src/query-builders/create.builder.ts:13-33 | the data loop passes exactly when every item does |
| MutationBuilderProps.CreateBuildShape | src/query-builders/create.builder.ts:8-36 | `build` succeeds exactly when `data` is iterable and every field of every item is a column or a relation; the context then holds the primary keys and no rows |
| CreateBuilder.MapRow | src/query-builders/create.builder.ts:14-32 | one item's check, as `MutationBuilderProps.CreateRowFold` states |
| CreateBuilder.Build | src/query-builders/create.builder.ts:8-36 | a fresh context exactly when the plan compiles, holding that plan; otherwise the error thrown |
| CreateContext.CreateContextQueryBuilder.constructor | src/query-builders/create.context.ts:8-11 | a new create context holds no keys and no rows |
| ContextQuery.CondLines | src/query-builders/context.query-builder.ts:96-98 | one tab-prefixed condition line per join condition, in order |
| ContextQuery.ColumnListSql | src/query-builders/context.query-builder.ts:77-86 | the loop gives the column list, which `ContextQueryProps.ColumnListHead` and `HeadClauses` describe |
| ContextQuery.JoinSection | src/query-builders/context.query-builder.ts:94-99 | the loop gives the join chunks `ContextQueryProps.JoinSectionShape` describes |
| ContextQuery.CondSection | src/query-builders/context.query-builder.ts:96-98 | the loop gives the lines `ContextQuery.CondLines` describes |
| ContextQuery.WhereBlock | src/query-builders/context.query-builder.ts:101-111 | a subtree condition raises the subtree error; otherwise the WHERE chunks (none without conditions) |
| ContextQuery.LeafLines | src/query-builders/context.query-builder.ts:103-110 | the loop over the conditions gives the WHERE lines, which `ContextQueryProps.LeafLines` shows are one tab-prefixed line per condition |
| ContextQuery.ReselectSection | src/query-builders/context.query-builder.ts:113-123 | the loop gives the re-select chunks `ContextQueryProps.ReselectClause` describes |
| ContextQuery.ChildrenSection | src/query-builders/context.query-builder.ts:125-128 | every child rendered in order, stopping at the first that throws |
| ContextQuery.RenderPlan | src/query-builders/context.query-builder.ts:64-131 | `toSql` gives the text or the error of the rendering function the lemmas below describe |
| ContextQuery.FindContextQueryBuilder.constructor | src/query-builders/context.query-builder.ts:53-62 | a new context holds the empty plan |
| ContextQuery.FindContextQueryBuilder.ToSql | src/query-builders/context.query-builder.ts:64-131 | renders the context's current plan |
| ContextQueryProps.LinesParts | src/query-builders/context.query-builder.ts:64-131 | a plan that renders has a projection, a `from` and no subtree; its chunks are head, joins, where, re-select and children |
| ContextQueryProps.QuerySqlErrors | src/query-builders/context.query-builder.ts:65-71 | `Required at least one column projection`, then `Required from`, then the subtree error, in that order |
| ContextQueryProps.RenderableIff | src/query-builders/context.query-builder.ts:64-131 | a plan renders exactly when it and every descendant have a projection, a `from` and no subtree condition |
| ContextQueryProps.StartsWithSelect | src/query-builders/context.query-builder.ts:75 | every rendered statement starts with `SELECT` |
| ContextQueryProps.ColumnListHead | src/query-builders/context.query-builder.ts:77-86 | the column list starts with a tab and a bracket |
| ContextQueryProps.HeadClauses | src/query-builders/context.query-builder.ts:75-92 | SELECT, then the column list (never a TOP line), then `INTO <into>` exactly when `into` is set, then FROM |
| ContextQueryProps.JoinSectionShape | src/query-builders/context.query-builder.ts:94-99 | the k-th join's header comes right after the earlier joins' chunks, followed by its condition lines |
| ContextQueryProps.WhereLinesAll | src/query-builders/context.query-builder.ts:101-111 | without a subtree, one line per condition, in order |
| ContextQueryProps.AllLinesNeutral | src/query-builders/context.query-builder.ts:64-131 | no line of a rendered statement opens an ordering or paging clause |
| ContextQueryProps.NoOrderingOrPaging | src/query-builders/context.query-builder.ts:64-131 | this builder never emits ORDER BY, OFFSET, FETCH NEXT or TOP |
| ContextQueryProps.ChildTextsAre | src/query-builders/context.query-builder.ts:125-128 | every child of a rendered plan renders, and its text is that child's SQL |
| ContextQueryProps.ChildrenClause | src/query-builders/context.query-builder.ts:125-128 | the statement ends with the children in order, each after a blank line |
| ContextQueryProps.ReselectClause | src/query-builders/context.query-builder.ts:113-123 | with `into` set, the four lines before the children re-select the projected columns by alias |
| ContextQueryProps.NoReselectWithoutInto | src/query-builders/context.query-builder.ts:113-123 | without `into`, the statement is head, joins, where and children only |
| ContextQueryProps.AccessorEnding | src/query-builders/context.query-builder.ts:158-165 | an accessor ends with ` AS [<alias>] WITH(NOLOCK)` exactly when it has an alias, otherwise with the table |
| ContextQueryProps.AccessorStart | src/query-builders/context.query-builder.ts:158-162 | an accessor starts with the database, else the schema, else the table |
| ContextQueryProps.JoinHeaderShape | src/query-builders/context.query-builder.ts:95 | a join header is `INNER JOIN ` or `LEFT JOIN `, the accessor, then ` ON` |
| ContextQueryProps.LeafLines | src/query-builders/context.query-builder.ts:103-110 | leaf conditions render one tab-prefixed line each, in order |
| FindQuery.BuildTableAccessor | src/query-builders/find.query-builder.ts:23-33 | the accessor keeps table and alias, and holds database and schema exactly when they are truthy |
| FindQuery.SelectColumns | src/query-builders/find.query-builder.ts:35-49 | the loop over `select` leaves the columns and error of the select fold |
| FindQuery.BuildSelect | src/query-builders/find.query-builder.ts:35-49 | only the context's columns change, as the select fold over `select` says |
| FindQuery.BuildWhere | src/query-builders/find.query-builder.ts:51-76 | the context's plan becomes the where fold's, and the method raises exactly the fold's error |
| FindQuery.BuildManyToOne | src/query-builders/find.query-builder.ts:217-260 | the context's plan becomes the many-to-one step's |
| FindQuery.PushChild | src/query-builders/find.query-builder.ts:146-160 | the child's projection is built and the child is appended to the parent's children |
| FindQuery.BuildManyToMany | src/query-builders/find.query-builder.ts:104-161 | the context's plan becomes the many-to-many step's |
| FindQuery.BuildOneToMany | src/query-builders/find.query-builder.ts:163-215 | the context's plan becomes the one-to-many step's |
| FindQuery.BuildRelation | src/query-builders/find.query-builder.ts:86-100 | dispatches on the relation kind to the matching step |
| FindQuery.BuildInclude | src/query-builders/find.query-builder.ts:78-102 | the context's plan becomes the include fold's |
| FindQuery.Build | src/query-builders/find.query-builder.ts:11-21 | returns a fresh context holding the built plan exactly when the plan builds, else the same error |
| FindQueryProps.WhereStepCases | src/query-builders/find.query-builder.ts:52-75 | a where key fails exactly when it is `_AND`/`_OR` or unknown; a column key binds `root_<field>` and adds one `=` condition; a relation key changes nothing |
| FindQueryProps.WhereFrame | src/query-builders/find.query-builder.ts:51-76 | the where fold changes only params and conditions |
| FindQueryProps.WhereFoldOk | src/query-builders/find.query-builder.ts:51-76 | the where fold succeeds exactly when every key is a column or relation other than `_AND`/`_OR` |
| FindQueryProps.WhereFoldError | src/query-builders/find.query-builder.ts:51-76 | a failing where fold raises the error of the first bad key |
| FindQueryProps.WhereFold | src/query-builders/find.query-builder.ts:51-76 | a successful fold adds exactly the conditions of its column keys, in order |
| FindQueryProps.ParamNameInjective | src/query-builders/find.query-builder.ts:60 | `root_<field>` names distinct fields differently |
| FindQueryProps.BoundParams | src/query-builders/find.query-builder.ts:60 | each column key's value is bound under its name and every other parameter is unchanged |
| FindQueryProps.WhereParams | src/query-builders/find.query-builder.ts:51-76 | a successful where fold binds every column key's value under `root_<field>` and leaves other parameters alone |
| FindQueryProps.ChildRunShape | src/query-builders/find.query-builder.ts:146-160 | a child is pushed with its projection exactly when every selected field is a column of the joined entity |
| FindQueryProps.ManyToManyShape | src/query-builders/find.query-builder.ts:104-161 | a nullish value throws; otherwise the parent goes into `#main` with a temporary join column, and the child reads the link table joined to `#main` and to the target |
| FindQueryProps.ManyToManyTrueUnrenderable | src/query-builders/find.query-builder.ts:146-160 | `include: {rel: true}` on a many-to-many pushes a child with no columns, whose SQL then fails |
| FindQueryProps.OneToManyShape | src/query-builders/find.query-builder.ts:163-215 | missing `select` raises `Expected select object` after staging; otherwise the child reads the target joined to `#main` |
| FindQueryProps.ManyToOneShape | src/query-builders/find.query-builder.ts:217-260 | one inner (non-null) or left join is appended; `true` projects every column as `<rel>.<field>`, an object only its kept fields |
| FindQueryProps.RelationExtends | src/query-builders/find.query-builder.ts:86-100 | a relation step only appends columns, joins, temporaries and children |
| FindQueryProps.IncludeExtends | src/query-builders/find.query-builder.ts:78-102 | the include fold only appends to the plan |
| FindQueryProps.RootShape | src/query-builders/find.query-builder.ts:11-16 | the root plan reads the entity aliased `root` and projects the kept fields, or fails on an unknown field |
| FindQueryProps.BuildNullish | src/query-builders/find.query-builder.ts:11-16 | building with nullish arguments throws a TypeError |
| FindQueryProps.BuildShape | src/query-builders/find.query-builder.ts:11-21 | a built plan reads `root`, projects every kept field, filters on every where column, and is plain without includes |
| FindQueryProps.BuildRendersRoot | src/query-builders/find.query-builder.ts:14 | the FROM line of a built plan ends with ` AS [root] WITH(NOLOCK)` |
| FindQueryProps.RootLine | src/query-builders/find.query-builder.ts:14 | the FROM line of any plan aliased `root` ends that way |
| FindQueryProps.BuildFrom | src/query-builders/find.query-builder.ts:14 | the built plan's accessor is the entity's, aliased `root` |
| CriteriaBuilder.WhereEntries | src/criteria-builder.ts:184 | the keys `for…in` visits: an object's own fields, an array's indices as strings, nothing otherwise |
| CriteriaBuilder.InVariables | src/criteria-builder.ts:230 | one `@<name>_<i>` placeholder per list item, in order |
| CriteriaBuilder.OperatorOf | src/criteria-builder.ts:212-235 | a filter operator only appends conditions and parameters |
| CriteriaBuilder.OperatorsFrom | src/criteria-builder.ts:212-235 | the remaining operators of a column filter only append |
| CriteriaBuilder.WhereOf | src/criteria-builder.ts:171-238 | a filter never changes columns, table, ordering or paging; joins and conditions only grow |
| CriteriaBuilder.WhereFrom | src/criteria-builder.ts:184-237 | the remaining keys of a filter only append |
| CriteriaBuilder.PropertyOf | src/criteria-builder.ts:185-236 | one key of a filter only appends |
| CriteriaBuilder.AndFrom | src/criteria-builder.ts:186-188 | the remaining `_and` items only append |
| CriteriaBuilder.BindArray | src/criteria-builder.ts:217 | binds each list item under `<name>_<index>` |
| CriteriaBuilder.BuildOperators | src/criteria-builder.ts:212-235 | the operator loop gives the context or the error the operator fold describes |
| CriteriaBuilder.BuildWhere | src/criteria-builder.ts:171-238 | `buildWhere` gives the context or the error `WhereOf` describes |
| CriteriaBuilder.BuildProperty | src/criteria-builder.ts:185-236 | one key handled as `PropertyOf` describes |
| CriteriaBuilder.BuildAnd | src/criteria-builder.ts:186-188 | each `_and` item filtered in turn, as `AndFrom` describes |
| CriteriaProps.IndexedNameInjective | src/criteria-builder.ts:217 | distinct indices give distinct parameter names |
| CriteriaProps.BindItemsLookup | src/criteria-builder.ts:217 | after binding a list, `<name>_<i>` holds the i-th item |
| CriteriaProps.EqOperator | src/criteria-builder.ts:219-225 | `_eq` adds `[<map>].[<column>] = @<var>`, binds the value under `<var>` and leaves every other parameter alone |
| CriteriaProps.InOperator | src/criteria-builder.ts:216-231 | `_in` succeeds exactly on arrays, binding each item and adding `in (@v_0,…)`; otherwise `Operator _in expects an array` |
| CriteriaProps.OtherOperator | src/criteria-builder.ts:232-233 | any other operator raises `Operator not implemented: <op>` |
| CriteriaProps.NoDotInMapName | src/criteria-builder.ts:214 | the variable-name prefix has no dots left |
| CriteriaProps.AndFromSeq | src/criteria-builder.ts:186-188 | the `_and` loop is a left fold over its items |
| CriteriaProps.AndFlattens | src/criteria-builder.ts:185-189 | `{_and: [w1, …]}` filters as w1, then w2, … in turn |
| CriteriaProps.FirstKeyThrows | src/criteria-builder.ts:184-237 | a failing first key fails the whole filter with its error |
| CriteriaProps.SingleKey | src/criteria-builder.ts:184-237 | a one-key filter is that key's step |
| CriteriaProps.FalsyFilter | src/criteria-builder.ts:180-182 | a falsy filter changes nothing |
| CriteriaProps.OrRefused | src/criteria-builder.ts:191-194 | `_or` raises `Not implemented` |
| CriteriaProps.UnknownKeyRefused | src/criteria-builder.ts:196-201 | a key that is neither a column nor a many-to-one raises `Unexpected property name: <key>` |
| CriteriaProps.RelationFilter | src/criteria-builder.ts:205-210 | a many-to-one key appends an INNER/LEFT join aliased by its dotted path and filters the target under that alias |
| CriteriaProps.ColumnEquals | src/criteria-builder.ts:211-225 | `{key: {_eq: v}}` adds one condition and binds v, adding no join |
| CriteriaBuild.SelectedColumns | src/criteria-builder.ts:254-258 | builds exactly when every plain field names a column, otherwise the `undefined` read error; then one column per plain field, in field order, each the column `.find` gives for that name, and every one an entity column |
| CriteriaBuild.PlainNames | src/criteria-builder.ts:255-256 | the names of the plain fields, exactly those of the projection's `field` items |
| CriteriaBuild.RelationsSelected | src/criteria-builder.ts:240-252 | each pair is an expanded field of the projection and the entity relation of the same name; one pair per expansion that names a relation (see `RelationsSelectedOrder`) |
| CriteriaBuild.RelatedExpansions | src/criteria-builder.ts:241-244 | the expansions that name a relation, exactly those of the projection |
| CriteriaBuild.RelationsSelectedOrder | src/criteria-builder.ts:240-252 | one pair per expansion that names a relation, in field order, the k-th holding the k-th such expansion and the relation `.find` returns for its name |
| CriteriaBuild.RelationsSelectedCovers | src/criteria-builder.ts:240-252 | every expansion that names a relation yields its pair |
| CriteriaBuild.PrimaryColumn | src/criteria-builder.ts:261 | a column carrying the `pk` directive, and none exactly when no column carries it; it is the first such column by `PrimaryColumnFirst` |
| CriteriaBuild.PrimaryColumnFirst | src/criteria-builder.ts:261 | like `.find`, the result is the first column carrying `pk`: every earlier column fails the test |
| CriteriaBuild.ColumnMatching | src/criteria-builder.ts:263-265 | the column whose field name is the `sortField` string, and none exactly when no column has it; it is the first such column by `ColumnMatchingFirst` |
| CriteriaBuild.ColumnMatchingFirst | src/criteria-builder.ts:263-265 | like `.find`, the result is the first column named by the `sortField` value: every earlier column fails the test |
| CriteriaBuild.PkColumns | src/criteria-builder.ts:47 | exactly the primary columns |
| CriteriaBuild.PkConditions | src/criteria-builder.ts:71 | one `[parent].[pk] = [root].[pk]` per primary column, in order |
| CriteriaBuild.RootColumns | src/criteria-builder.ts:66 | one `[root].[<column>] AS [<field>]` per selected column, in order |
| CriteriaBuild.AliasedColumns | src/criteria-builder.ts:149-151 | one `[<alias>].[<column>] AS [<alias>.<field>]` per selected column, in order |
| CriteriaBuild.HeadOf | src/criteria-builder.ts:33-87 | the head context has no `into` and no conditions, and pushes a parent column exactly when it has a parent |
| CriteriaBuild.ManyToOneHead | src/criteria-builder.ts:128-151 | joining a many-to-one only appends columns and joins |
| CriteriaBuild.BuildOf | src/criteria-builder.ts:27-119 | `build` returns at least the root context, and a parent column exactly when it has a parent |
| CriteriaBuild.ManyToOneOf | src/criteria-builder.ts:121-169 | a many-to-one relation only appends to the context and the collected contexts |
| CriteriaBuild.ManyToOneLoop | src/criteria-builder.ts:98-104 | the many-to-one loop only appends |
| CriteriaBuild.OneToManyLoop | src/criteria-builder.ts:106-112 | the one-to-many loop only appends |
| CriteriaBuild.Build | src/criteria-builder.ts:27-119 | the method gives the result `BuildOf` describes |
| CriteriaBuild.BuildManyToOne | src/criteria-builder.ts:121-169 | the method gives the result `ManyToOneOf` describes |
| CriteriaBuild.BuildManyToOnes | src/criteria-builder.ts:98-104 | the loop gives the result `ManyToOneLoop` describes |
| CriteriaBuild.BuildOneToManies | src/criteria-builder.ts:106-112 | the loop gives the result `OneToManyLoop` describes |
| CriteriaBuildProps.SortFallback | src/criteria-builder.ts:260-276 | sort by the first column a truthy `sortField` names, else the first `pk` column, else the first column; none only for an entity without columns |
| CriteriaBuildProps.PagingRule | src/criteria-builder.ts:77-82 | `limit` without `offset` sets TOP; with both, OFFSET and FETCH; otherwise no paging; nothing else changes |
| CriteriaBuildProps.HeadParts | src/criteria-builder.ts:33-87 | the head reads the entity aliased `root`, orders by the sort field, projects the selected columns, then the parent column |
| CriteriaBuildProps.HeadShape | src/criteria-builder.ts:62-75 | ordering `[root].[<sort>] DESC` only for `sortOrder: 'DESC'`, else ASC; a parent table variable joins on every primary key |
| CriteriaBuildProps.ParentJoinLink | src/criteria-builder.ts:69 | a child joins `#<temp> [parent]` on its link key |
| CriteriaBuildProps.ParentColumnLink | src/criteria-builder.ts:50-55 | the column a child pushes into its parent is aliased by the link key |
| CriteriaBuildProps.OwnParentColumnLink | src/criteria-builder.ts:84-86 | a child projects the parent's link column as `[__parent…]` |
| CriteriaBuildProps.HeadLink | src/criteria-builder.ts:50-86 | a child's head has exactly the parent join, pushes the link column into the parent and projects it last |
| CriteriaBuildProps.BuildRoot | src/criteria-builder.ts:114-118 | the root context keeps the head's table, ordering and paging, and gets `into` exactly when other contexts follow it |
| CriteriaBuildProps.ManyToOneShape | src/criteria-builder.ts:130-151 | a many-to-one appends an INNER (non-null) or LEFT join of its target under the dotted alias, and that alias's columns |
| CriteriaBuildProps.ManyToOneHeadShape | src/criteria-builder.ts:130-151 | the join and the aliased columns are exactly the ones appended |
| CriteriaBuildProps.NestedContextsDropped | src/criteria-builder.ts:153-158 | as written, a nested many-to-one loop drops the contexts of its relations and builds the same context otherwise |
| CriteriaBuildProps.NestedContextsKept | src/criteria-builder.ts:153-158 | when collected, the nested relation's contexts are returned |
| CriteriaBuildProps.NestedContextWitness | src/criteria-builder.ts:153-158 | when a nested relation builds contexts, the code as written returns fewer contexts than the corrected code |
| CriteriaBuildProps.ChildrenFrom | src/criteria-builder.ts:106-112 | each one-to-many child built on its own with its parent link: the contexts of all of them in relation order and one parent column per relation, or the first child's error |
| CriteriaBuildProps.OneToManyChildren | src/criteria-builder.ts:106-112 | the one-to-many loop succeeds exactly when every child builds; it then returns the contexts it was given followed by every child's contexts in relation order, with each child's parent column pushed onto the context's columns in the same order; otherwise it fails with the first failing child's error |
| QueryPrint.TrimStart | src/query-print.ts:20 | drops exactly the leading white space |
| QueryPrint.TrimEnd | src/query-print.ts:20 | drops exactly the trailing white space |
| QueryPrint.Trim | src/query-print.ts:20 | the result neither starts nor ends with white space |
| QueryPrint.Distinct | src/query-print.ts:6-7 | `[...new Set(xs)]`: the same strings, no duplicates |
| QueryPrint.Tabbed | src/query-print.ts:11 | each column prefixed with a tab |
| QueryPrint.Lines | src/query-print.ts:9-19 | the template has ten lines |
| QueryPrint.Template | src/query-print.ts:9-20 | the template starts with a line break and `SELECT` |
| QueryPrint.Print | src/query-print.ts:5-21 | the printed statement starts with `SELECT` and ends with no white space |
| QueryPrintProps.FirstIndex | src/query-print.ts:6 | the first position of a string in a list |
| QueryPrintProps.DistinctKeepsDistinct | src/query-print.ts:6-7 | a list without duplicates passes through unchanged |
| QueryPrintProps.DistinctIdempotent | src/query-print.ts:6-7 | de-duplicating twice is de-duplicating once |
| QueryPrintProps.DistinctFirstOrder | src/query-print.ts:6-7 | the kept strings are in the order of their first occurrences |
| QueryPrintProps.TrimKeepsTrimmed | src/query-print.ts:20 | trimming a trimmed string changes nothing |
| QueryPrintProps.TrimCuts | src/query-print.ts:20 | the trimmed text is a slice of the input with only white space cut on either side |
| QueryPrintProps.TopLine | src/query-print.ts:10 | `SELECT TOP <top>` exactly when `top` is truthy, otherwise `SELECT ` |
| QueryPrintProps.ColumnLines | src/query-print.ts:6-11 | the column line lists each distinct column once, tab-prefixed, joined by `,\n` |
| QueryPrintProps.IntoPaired | src/query-print.ts:12-19 | `INTO #<t>` appears exactly when `SELECT * FROM #<t>` does, and both exactly when `into` is set |
| QueryPrintProps.WhereLine | src/query-print.ts:15 | a WHERE line exactly when there are conditions, joined by ` AND ` |
| QueryPrintProps.OffsetNeedsOrder | src/query-print.ts:16-17 | OFFSET/FETCH only with an ORDER BY and both bounds defined; ORDER BY exactly when `orderBy` is non-empty |
| QueryPrintProps.IntoTail | src/query-print.ts:19-20 | a statement with `into` ends with a blank line and `SELECT * FROM #<into>` |
| LegacySchema.EntityOfModel | src/create-builder.ts:112 | the entity whose model is the given one, and none exactly when no entity has it; it is the first by `EntityOfModelFirst` |
| LegacySchema.EntityOfModelFirst | src/create-builder.ts:112 | like `.find`, the result is the first entity whose model is the given one: every earlier entity fails the test |
| LegacySchema.EntityNamed | src/criteria-builder.ts:39 | the entity of that name, and none exactly when no entity has it; it is the first by `EntityNamedFirst` |
| LegacySchema.EntityNamedFirst | src/criteria-builder.ts:39 | like `.find`, the result is the first entity of that name: every earlier entity fails the test |
| LegacySchema.ColumnOfField | src/criteria-builder.ts:196 | the column of that field, and none exactly when no column has it; it is the first by `ColumnOfFieldFirst` |
| LegacySchema.ColumnOfFieldFirst | src/criteria-builder.ts:196 | like `.find`, the result is the first column of that name: every earlier column fails the test |
| LegacySchema.RelationOfField | src/criteria-builder.ts:197 | the relation of that field, and none exactly when no relation has it; it is the first by `RelationOfFieldFirst` |
| LegacySchema.RelationOfFieldFirst | src/criteria-builder.ts:197 | like `.find`, the result is the first relation of that name: every earlier relation fails the test |
| LegacyCreate.KeyFields | src/create-builder.ts:61 | one `<field> <sql type>` per key column, in order |
| LegacyCreate.KeyTargets | src/create-builder.ts:102 | one `[<field>]` per key column, in order |
| LegacyCreate.Declared | src/create-builder.ts:52-62 | a new table variable is created with index 0 and declared once; an existing one is left alone |
| LegacyCreate.Bump | src/create-builder.ts:80 | taking an index keeps the same table variables |
| LegacyCreate.FieldColumns | src/create-builder.ts:83-85 | exactly the columns of the object's own property names |
| LegacyCreate.RelationOfProperty | src/create-builder.ts:90 | a relation of that name from the many-to-ones or the one-to-manies, none exactly when neither has it, and the many-to-one whenever there is one (`??`) |
| LegacyCreate.FieldRelations | src/create-builder.ts:89-91 | only relations named by the object's properties; one per property that names a relation, in property order, each the relation that property follows; every such property contributes its relation |
| LegacyCreate.RelatedNames | src/create-builder.ts:89-91 | the property names that name a relation, exactly those |
| LegacyCreate.Vars | src/create-builder.ts:103-108 | one `@item_<index>_<entity>_<field>` per column, in order |
| LegacyCreate.FirstEntity | src/create-builder.ts:94 | the self-comparing `find` yields the first entity, and none only for no entities |
| LegacyCreate.RelationObjects | src/create-builder.ts:113-116 | a single-valued relation's value is wrapped in a one-element list, a collection's is taken as is |
| LegacyCreate.ModelOf | src/create-builder.ts:41-69 | `buildModel` only grows the batch and keeps every table variable |
| LegacyCreate.ModelFrom | src/create-builder.ts:66-68 | the loop over the objects only grows |
| LegacyCreate.ObjectOf | src/create-builder.ts:71-125 | `buildModelObject` only grows |
| LegacyCreate.RelationsFrom | src/create-builder.ts:111-124 | the loop over the relation properties only grows |
| LegacyCreate.CreateOutput.constructor | src/create-builder.ts:30-34 | the output starts with no table variables, chunks or parameters |
| LegacyCreate.CreateOutput.BuildModel | src/create-builder.ts:41-69 | the output becomes the state `ModelOf` describes, or the method raises its error |
| LegacyCreate.CreateOutput.Declare | src/create-builder.ts:52-62 | the output becomes the declared state |
| LegacyCreate.CreateOutput.InsertAll | src/create-builder.ts:66-68 | the output becomes the state of the object loop |
| LegacyCreate.CreateOutput.InsertItem | src/create-builder.ts:67 | one object is inserted and the rest of the loop is what remains |
| LegacyCreate.CreateOutput.BuildModelObject | src/create-builder.ts:71-125 | the output becomes the state `ObjectOf` describes |
| LegacyCreate.CreateOutput.InsertObject | src/create-builder.ts:83-124 | the parameters, the INSERT chunks, then the relations |
| LegacyCreate.CreateOutput.BindColumns | src/create-builder.ts:87 | only the parameters change, one per column property |
| LegacyCreate.CreateOutput.FollowRelations | src/create-builder.ts:111-124 | the output becomes the state of the relation loop |
| LegacyCreate.Build | src/create-builder.ts:25-39 | a fresh output holding the built state, or the error |
| LegacyCreate.ModelOfSteps | src/create-builder.ts:49-68 | `buildModel` declares the path's table variable, then inserts its objects in order |
| LegacyCreate.ModelFromStep | src/create-builder.ts:66-68 | one pass of the object loop |
| LegacyCreate.ObjectOfSteps | src/create-builder.ts:80-124 | an object takes its index, binds its column properties, emits its rows, then follows its relations |
| LegacyCreate.RelationsStep | src/create-builder.ts:111-124 | a relation property inserts its objects under the object's path with this object as parent; an unknown target entity crashes |
| LegacyCreate.ItemsSmaller | src/create-builder.ts:66-67 | every object a value holds is smaller than it, so the recursion ends |
| LegacyCreate.RelationObjectsSmaller | src/create-builder.ts:113-118 | a relation property's objects are smaller than the object holding them |
| LegacyCreateProps.ModelIndices | src/create-builder.ts:41-69 | `buildModel` hands out one index per object from its own table variable and leaves shorter ones alone |
| LegacyCreateProps.ModelAdvance | src/create-builder.ts:66-68 | after the loop, the table variable's index has moved by the number of objects |
| LegacyCreateProps.FromAdvance | src/create-builder.ts:66-68 | the remaining objects move the index by their number |
| LegacyCreateProps.ObjectIndices | src/create-builder.ts:80 | one object takes exactly one index |
| LegacyCreateProps.RelationsIndices | src/create-builder.ts:111-124 | nested inserts touch only longer-named table variables |
| LegacyCreateProps.CreateRoot | src/create-builder.ts:25-39 | the batch starts with the root's declaration, and the root's index ends at the number of objects |
| LegacyCreateProps.ParamNameInjective | src/create-builder.ts:87 | within one object, parameter names are distinct for distinct fields |
| LegacyCreateProps.BindParamsBinds | src/create-builder.ts:87 | each column property's value is bound under its parameter name |
| LegacyCreateProps.BindParamsOthers | src/create-builder.ts:87 | every other parameter is unchanged |
| LegacyCreateProps.RootValues | src/create-builder.ts:104-108 | a root object's rows are INSERT, columns, OUTPUT and VALUES, each placeholder bound to the object's property |
| LegacyCreateProps.NestedInsert | src/create-builder.ts:93-103 | corrected: a nested object's rows succeed exactly when the target has the destination column, and select the parent key from the parent's table variable at its index |
| LegacyCreateProps.FirstEntityWitness | src/create-builder.ts:94-98 | as written, a single-valued relation looks its column up in the first entity, so a context listing `Post` first crashes where the corrected lookup finds `User.id` |
| LegacyCreateProps.ObjectRows | src/create-builder.ts:100-108 | an inserted object's four rows follow the batch so far |
| LegacyCreateProps.SingleObject | src/create-builder.ts:114-116 | a single-valued relation inserts exactly its one value |
| LegacyUpdate.PrintSqlType | src/update-builder.ts:78-87 | `varchar` and `varbinary` get `(6000)`, every other type prints as is |
| LegacyUpdate.KeyColumns | src/update-builder.ts:50 | exactly the primary columns |
| LegacyUpdate.KeyDeclarations | src/update-builder.ts:51 | one `<column> <sql type>` per key column, in order |
| LegacyUpdate.InsertedKeys | src/update-builder.ts:60 | one `INSERTED.[<column>]` per key column, in order |
| LegacyUpdate.Bracketed | src/update-builder.ts:60 | one `[<column>]` per key column, in order |
| LegacyUpdate.UpdateOf | src/update-builder.ts:25-70 | nullish arguments crash; an update has at least five chunks, the second `UPDATE [root]` |
| LegacyUpdate.Build | src/update-builder.ts:25-70 | the method gives the result `UpdateOf` describes |
| LegacyUpdate.MapSet | src/update-builder.ts:54-58 | the SET loop gives the assignments and parameters `SetItems` describes |
| LegacyUpdate.SetItemsErr | src/update-builder.ts:54-58 | once a field has no column, the whole SET list fails |
| LegacyUpdateProps.AssignReads | src/update-builder.ts:66 | after `{...a, ...b}` a key reads from `b` when `b` has it, else from `a` |
| LegacyUpdateProps.SetItemsSucceed | src/update-builder.ts:54-58 | the SET list succeeds exactly when every changed field has a column |
| LegacyUpdateProps.SetItemsAssign | src/update-builder.ts:57 | the i-th assignment is `[<column>] = @<field>` for the i-th changed field |
| LegacyUpdateProps.SetItemsLast | src/update-builder.ts:54-58 | the list for n+1 fields is the list for n plus one assignment |
| LegacyUpdateProps.SetItemsLength | src/update-builder.ts:54-58 | one assignment per changed field |
| LegacyUpdateProps.SetItemsKeys | src/update-builder.ts:56 | a parameter is bound exactly for each changed field |
| LegacyUpdateProps.SetItemsValues | src/update-builder.ts:56 | each changed field's parameter holds its new value |
| LegacyUpdateProps.SetItemsFailure | src/update-builder.ts:55-56 | a field with no column crashes reading `column.info` |
| LegacyUpdateProps.ChunksShape | src/update-builder.ts:51-65 | DECLARE, `UPDATE [root]`, SET, OUTPUT, FROM, the filter's joins, then WHERE exactly when there are conditions |
| LegacyUpdateProps.UpdateShape | src/update-builder.ts:36-66 | a built update holds those chunks, and a changed field's parameter is the filter's when both bind the name, else its new value |
| LegacyUpdateProps.LockedAccess | src/update-builder.ts:72-76 | the target is read `WITH(ROWLOCK)`, schema-qualified when there is a schema |
| LegacyAggregate.AggregateField | src/aggregate-builder.ts:14 | the `aggregate` field of the projection, and none exactly when there is none |
| LegacyAggregate.AggregateOf | src/aggregate-builder.ts:7-45 | an unknown entity crashes; the context reads the entity under its (prefixed) alias, with no ordering, `into` or paging |
| LegacyAggregate.PushAggregator | src/aggregate-builder.ts:32-40 | the loop over an aggregator's properties gives the columns of the property fold |
| LegacyAggregate.Build | src/aggregate-builder.ts:7-45 | the method gives the result `AggregateOf` describes |
| LegacyAggregateProps.AvgColumns | src/aggregate-builder.ts:37 | one `AVG([<alias>].[<column>]) AS [avg.<field>]` per property, in order |
| LegacyAggregateProps.OtherAggregatorAddsNothing | src/aggregate-builder.ts:35-39 | an aggregator other than `avg` adds no column |
| LegacyAggregateProps.AvgAddsColumns | src/aggregate-builder.ts:33-40 | `avg` succeeds exactly when every property has a column, adding its AVG columns; otherwise reading `column.name` crashes |
| LegacyAggregateProps.FieldStepContributes | src/aggregate-builder.ts:29-41 | one aggregate field appends its contribution |
| LegacyAggregateProps.ColumnsAreContributions | src/aggregate-builder.ts:28-42 | the loop appends the fields' contributions in order |
| LegacyAggregateProps.AggregateColumns | src/aggregate-builder.ts:12-44 | a built aggregate has the filter's joins, conditions and parameters, and exactly the aggregate fields' columns |
| LegacyAggregateProps.CountsOnly | src/aggregate-builder.ts:29-30 | `count` fields give `COUNT(1) AS [count]` each |
| EntityTransformer.ColumnTypeFromDataType | src/entity-transformer.ts:5-24 | an unknown type raises `Unknown primitive type <type>` |
| EntityTransformer.FieldNamed | src/entity-transformer.ts:48-58 | the field of that name, and none exactly when no field has it; it is the first by `FieldNamedFirst` |
| EntityTransformer.FieldNamedFirst | src/entity-transformer.ts:48-58 | like `.find`, the result is the first field named by the argument: every earlier field fails the test |
| EntityTransformer.FieldNames | src/entity-transformer.ts:61 | the field names, in order |
| EntityTransformer.ModelOfType | src/entity-transformer.ts:53 | a model whose name is the field's type; the same lookup recurs at line 87 |
| EntityTransformer.TransformFieldsStop | src/entity-transformer.ts:86-97 | once a field fails, the whole entity fails with its error |
| EntityTransformer.TransformModel | src/entity-transformer.ts:79-107 | the loop gives the entity or the error `EntityFromModel` describes |
| EntityTransformerProps.TransformerTypeTable | src/entity-transformer.ts:5-24 | exactly the seven primitive types map, and to distinct column types |
| EntityTransformerProps.TypeTablesAgreeButBoolean | src/entity-transformer.ts:9-10 | this table and the converter's accept the same types and agree on all but `boolean` (`tinyint` here, `bit` there) |
| EntityTransformerProps.ColumnNaming | src/entity-transformer.ts:26-36 | a column keeps its field, is primary exactly with `@pk`, is named by a truthy `@column(name)` else the field, and typed by `@column(type)` else the type table |
| EntityTransformerProps.RelationResolved | src/entity-transformer.ts:38-77 | a relation resolves exactly when `@relation`, its source field, the target model and its destination field all exist, and records them |
| EntityTransformerProps.ColumnInfos | src/entity-transformer.ts:95 | the fields of the columns, in order |
| EntityTransformerProps.RelationInfos | src/entity-transformer.ts:90-92 | the fields of the relations, in order |
| EntityTransformerProps.ColumnStep | src/entity-transformer.ts:94-96 | a plain field becomes one more column, exactly when it transforms |
| EntityTransformerProps.OneToManyStep | src/entity-transformer.ts:89-90 | a collection of a model becomes one more one-to-many |
| EntityTransformerProps.ManyToOneStep | src/entity-transformer.ts:91-92 | a single model reference becomes one more many-to-one |
| EntityTransformerProps.FieldsSorted | src/entity-transformer.ts:86-97 | the fields succeed exactly when each transforms, and each lands in its own list, in order |
| EntityTransformerProps.EntityShape | src/entity-transformer.ts:79-107 | the entity keeps its model, sorts every field, is named by a truthy `@entity(name)` else the model, and has a schema exactly when `@entity(schema)` is truthy |
| RecordsetConverter.SelectRow | src/recordset.converter.ts:75-81 | the loop over `select` builds the item `Selection` describes |
| RecordsetConverter.BuildKeyRecord | src/recordset.converter.ts:98-101 | the loop builds the parent-key record `KeyRecord` describes |
| RecordsetConverter.ConvertRecordset | src/recordset.converter.ts:48-73 | the loop over the rows gives the list `RecordsetOf` describes |
| RecordsetConverter.DifferentParent | src/recordset.converter.ts:59-65 | a row is skipped exactly when it does not belong to the parent |
| RecordsetConverter.ConvertRow | src/recordset.converter.ts:83-111 | the row's item is the one `RowOf` describes |
| RecordsetConverter.ConvertInclude | src/recordset.converter.ts:88-107 | one include handled as `IncludeOf` describes |
| RecordsetProps.SelectKeys | src/recordset.converter.ts:77-78 | the item has exactly the keys of `select` |
| RecordsetProps.SelectValues | src/recordset.converter.ts:78 | each selected key reads the row's column `<prefix><key>` |
| RecordsetProps.SelectOrder | src/recordset.converter.ts:77-79 | the item's keys come in the order of `select` |
| RecordsetProps.SelectionOfObject | src/recordset.converter.ts:75-81 | for an object `select`, the item's keys are the selected keys in order, each with the row's prefixed value |
| RecordsetProps.KeyNames | src/recordset.converter.ts:99-100 | the key record has exactly the primary fields' names |
| RecordsetProps.KeyValues | src/recordset.converter.ts:100 | each key reads the row's `__<field>` column |
| RecordsetProps.ChildCorrelation | src/recordset.converter.ts:59-65 | a child row belongs to a parent exactly when every `__parent_<pk>` equals (`===`) the parent's `__<pk>` |
| RecordsetProps.NoKeysKeepsAll | src/recordset.converter.ts:59-65 | with no primary keys, every child row belongs to the parent |
| RecordsetProps.KeptRows | src/recordset.converter.ts:58-68 | the kept rows are exactly the rows that belong to the parent; with no parent, all rows |
| RecordsetProps.RowsKept | src/recordset.converter.ts:58-70 | the loop converts exactly the kept rows, in order, and fails exactly when one of them fails |
| RecordsetProps.RecordsetRows | src/recordset.converter.ts:48-73 | a missing recordset crashes; otherwise the output is the kept rows converted, in order |
| RecordsetProps.FindManyRows | src/recordset.converter.ts:43-45 | find-many converts every row of the first recordset, in order |
| RecordsetProps.RowStart | src/recordset.converter.ts:83-87 | nullish arguments crash; without includes, the item is the selection alone |
| RecordsetProps.IncludeErrors | src/recordset.converter.ts:88-107 | an unknown relation crashes; a non-object value raises `Pending implement projection…`; other keys of the item are untouched |
| RecordsetProps.ManyToOneInclude | src/recordset.converter.ts:91-93 | a many-to-one include becomes an object of the selected keys read from `<relation>.<key>` |
| RecordsetProps.ToManyInclude | src/recordset.converter.ts:97-104 | a to-many include becomes the next recordset's rows that belong to this row |
| RecordsetProps.FindManyReadsProjection | src/recordset.converter.ts:43-45 | find-many reads only `select` and `include` of its arguments, which the row converter at lines 83-88 reads |
| RecordsetProps.MutationShape | src/recordset.converter.ts:12-25 | the count is the sum of the rows affected; `returning` is present exactly when `include` or `select` is given, and is then the find-many conversion |
| RecordsetProps.AggregateShape | src/recordset.converter.ts:27-41 | `count` is set exactly when asked, from the first record's `count`; asking with no record crashes |
| ObjectExpander.ReadOutputOf | src/object-expander.ts:12-59 | the index handed back lies between the starting recordset and the last one |
| ObjectExpander.ReadRowsOf | src/object-expander.ts:34-56 | the row loop's index lies between the starting recordset and the last one |
| ObjectExpander.ExpandedOf | src/object-expander.ts:61-105 | expanding a row leaves the index where it was or moves it forward within the recordsets |
| ObjectExpander.ExpandFrom | src/object-expander.ts:73-102 | the field loop only moves the index forward |
| ObjectExpander.ExpandFieldOf | src/object-expander.ts:74-101 | one field only moves the index forward |
| ObjectExpander.ExpandRelationOf | src/object-expander.ts:77-100 | one relation field only moves the index forward |
| ObjectExpander.ReadRowsStop | src/object-expander.ts:34-56 | once a row fails, the whole read fails with its error |
| ObjectExpander.BuildReadOutput | src/object-expander.ts:12-59 | the method gives the result `ReadOutputOf` describes |
| ObjectExpander.ExpandObject | src/object-expander.ts:61-105 | the method gives the result `ExpandedOf` describes |
| ObjectExpander.ExpandField | src/object-expander.ts:74-101 | one field handled as `ExpandFieldOf` describes |
| ObjectExpander.ExpandRelation | src/object-expander.ts:77-100 | one relation handled as `ExpandRelationOf` describes |
| ObjectExpander.SimpleExpandObject | src/object-expander.ts:107-117 | the loop gives the object `SimpleExpandOf` describes |
| ObjectExpanderProps.Kept | src/object-expander.ts:35-49 | a row is kept exactly when its parent check is `Ok(true)`: every kept row is such a row, and every such row is kept |
| ObjectExpanderProps.KeptAll | src/object-expander.ts:35 | without a parent item every row is kept |
| ObjectExpanderProps.RowsKept | src/object-expander.ts:34-56 | the read succeeds exactly when every parent check and every kept row's expansion do, giving the kept rows expanded, in order |
| ObjectExpanderProps.RowsIndex | src/object-expander.ts:32-54 | the index handed back is the largest of the start and the kept rows' indices |
| ObjectExpanderProps.TopRows | src/object-expander.ts:34-56 | without a parent, every row is expanded, in order |
| ObjectExpanderProps.ParentColumns | src/object-expander.ts:36-48 | a row is kept exactly when both keys are defined and equal (`===`); a missing dest or parent key raises its error |
| ObjectExpanderProps.FlatExpand | src/object-expander.ts:70-75 | a projection of plain fields reads each field from `<prefix>.<name>` and hands back the index it was given (line 104) |
| ObjectExpanderProps.ManyToOneNests | src/object-expander.ts:93-97 | a many-to-one nests an object read under `<prefix>.<relation>.` at the same index |
| ObjectExpanderProps.OneToManyAdvances | src/object-expander.ts:80-92 | a one-to-many reads the next recordset's rows that belong to this row, and moves the index to where that read ended |
| ObjectExpanderProps.NestReads | src/object-expander.ts:112-114 | a value nested along a path reads back along it |
| ObjectExpanderProps.SimpleAbsent | src/object-expander.ts:109-115 | a key no entry starts with stays undefined |
| ObjectExpanderProps.SimpleExpandReads | src/object-expander.ts:107-117 | when entries start with distinct heads, each reads back along its dotted path |
| ObjectExpanderProps.SimpleExpandDropsSibling | src/object-expander.ts:112-114 | as written, `{"p.a": 1, "p.b": 2}` expands to `{p: {b: 2}}`: the second entry replaces the first's container |
| ObjectExpanderProps.SetPathReads | src/object-expander.ts:112-114 | setting along a path and reading along it gives the value |
| ObjectExpanderProps.SetPathKeeps | src/object-expander.ts:112-114 | setting along a path leaves every diverging path unchanged |
| ObjectExpanderProps.MergeExpandReads | src/object-expander.ts:107-117 | corrected: every entry reads back along its dotted path, when no path is a prefix of another |
| ObjectExpanderProps.MergeExpandKeepsSibling | src/object-expander.ts:107-117 | corrected: `{"p.a": 1, "p.b": 2}` keeps both |
| ObjectExpanderProps.MergeAgreesWhenHeadsDistinct | src/object-expander.ts:107-117 | the corrected and the as-written expansion agree when entries start with distinct heads |
| EntityConverter.ColumnType | src/entity.converter.ts:8-27 | an unknown type raises `Adurc primitive type "<type>" not implemented` |
| EntityConverter.MssqlDirectives | src/entity.converter.ts:39-61 | exactly the directives whose provider is `mssql` |
| EntityConverter.FindDirective | src/entity.converter.ts:40-64 | the directive of that name, and none exactly when there is none; it is the first by `FindDirectiveFirst` |
| EntityConverter.FindDirectiveFirst | src/entity.converter.ts:40-64 | like `.find`, the result is the first directive of that name: every earlier directive fails the test |
| EntityConverter.RelationDirectives | src/entity.converter.ts:103 | exactly the `manyToOne`, `oneToMany` and `manyToMany` directives |
| EntityConverter.DirectiveNames | src/entity.converter.ts:108 | the directive names, in order |
| EntityConverter.ModelNamed | src/entity.converter.ts:97 | the model of that name, and none exactly when there is none; it is the first by `ModelNamedFirst` |
| EntityConverter.ModelNamedFirst | src/entity.converter.ts:97 | like `.find`, the result is the first model of that name: every earlier model fails the test |
| EntityConverter.EntityIndex | src/entity.converter.ts:111 | the first entity of that model, and none exactly when there is none |
| EntityConverter.FieldStep | src/entity.converter.ts:61-134 | a field changes only the entity's columns and relations |
| EntityConverter.FieldsOf | src/entity.converter.ts:60-135 | the field loop changes only the entity's columns and relations |
| EntityConverter.FieldsOfStop | src/entity.converter.ts:60-135 | once a field fails, the whole entity fails with its error |
| EntityConverter.SecondPassStop | src/entity.converter.ts:59-136 | once an entity fails, the whole conversion fails with its error |
| EntityConverter.EntityIndexSameInfo | src/entity.converter.ts:111 | the relation lookup sees only which models the entities hold, so filling in columns does not change it |
| EntityConverter.FieldsOfSameInfo | src/entity.converter.ts:111 | converting fields gives the same result against entities holding the same models |
| EntityConverter.FromModels | src/entity.converter.ts:29-139 | the two loops give the entities or the error `FromModelsOf` describes |
| EntityConverter.SecondPassStep | src/entity.converter.ts:59-136 | one more entity converted keeps the loop invariant, or its error is the conversion's |
| EntityConverter.ConvertModels | src/entity.converter.ts:33-56 | the first loop gives the field-less entities `EntitiesOf` describes |
| EntityConverter.ConvertFields | src/entity.converter.ts:60-135 | the field loop gives the entity `FieldsOf` describes |
| EntityConverter.ConvertField | src/entity.converter.ts:61-134 | one field handled as `FieldStep` describes |
| EntityConverterProps.ColumnTypeTable | src/entity.converter.ts:8-27 | exactly the seven primitive types map, and to distinct column types |
| EntityConverterProps.MssqlModels | src/entity.converter.ts:34-37 | exactly the models whose source is `mssql` |
| EntityConverterProps.FirstPassOrder | src/entity.converter.ts:33-56 | one entity per `mssql` model, in order |
| EntityConverterProps.EntityNaming | src/entity.converter.ts:42-53 | the entity keeps its model, starts empty, takes `@entity(name)` unless nullish else the model's name, and schema and database likewise |
| EntityConverterProps.ColumnDefaults | src/entity.converter.ts:63-90 | a column converts exactly when its type does; without `@column` it is plain; with it, `primary`/`computed` need `=== true`, `identity` `== true`, and a truthy name or type overrides |
| EntityConverterProps.ColumnFields | src/entity.converter.ts:90 | the fields of the columns, in order |
| EntityConverterProps.RelationFields | src/entity.converter.ts:115-132 | the fields of the relations, in order |
| EntityConverterProps.FieldStepShape | src/entity.converter.ts:61-134 | a field converts exactly when it is convertible, and adds itself to the columns or relations |
| EntityConverterProps.FieldsConverted | src/entity.converter.ts:60-135 | the fields convert exactly when each does, each appended in order |
| EntityConverterProps.SecondPassShape | src/entity.converter.ts:59-136 | the second loop succeeds exactly when every entity's fields convert, keeping each entity's model |
| EntityConverterProps.FirstPassInfos | src/entity.converter.ts:33-56 | the first loop gives one field-less entity per `mssql` model |
| EntityConverterProps.FromModelsOk | src/entity.converter.ts:29-139 | the conversion succeeds exactly when every `mssql` model's fields convert |
| EntityConverterProps.FromModelsShape | src/entity.converter.ts:29-139 | each entity has its model's primitive fields as columns and its `mssql` references as relations, in order |
| EntityConverterProps.RelationTarget | src/entity.converter.ts:97-133 | a relation records its field, the first entity of the target model (undefined when there is none) and its kind |
| EntityConverterProps.RelationErrors | src/entity.converter.ts:97-109 | a missing model, no relation directive, or more than one, each raises its message |
| Js.Keys | src/recordset.converter.ts:77 | the keys of an object, in insertion order |
| Js.Put | src/criteria-builder.ts:219 | `obj[key] = v` keeps the key order, appending a new key at the end |
| Js.Prop | src/recordset.converter.ts:90 | reading a property of a non-nullish value never throws |
| Js.OwnProperties | src/create-builder.ts:81 | `Object.getOwnPropertyNames` throws exactly on nullish values and gives an object's own fields |
| Js.NatToStringInjective | src/criteria-builder.ts:217 | distinct indices print differently |
| Js.SplitPieces | src/object-expander.ts:112 | `split('.')` gives pieces without dots that join back to the key |
| Schema.FindColumn | src/query-builders/find.query-builder.ts:58 | the column of that field, and none exactly when there is none; it is the first by `FindColumnFirst` |
| Schema.FindColumnFirst | src/query-builders/find.query-builder.ts:58 | like `.find`, the result is the first column of that name: every earlier column fails the test |
| Schema.FindRelation | src/recordset.converter.ts:89 | the relation of that field, and none exactly when there is none; it is the first by `FindRelationFirst` |
| Schema.FindRelationFirst | src/recordset.converter.ts:89 | like `.find`, the result is the first relation of that name: every earlier relation fails the test |
| Schema.PrimaryColumns | src/recordset.converter.ts:99 | exactly the primary columns |
| UpdateContext.SetItems | src/query-builders/update.context.ts:44-46 | one `[column] = value` item per listed key, in the keys' order, each carrying the value stored under that key |
| UpdateProps.UpdateParts | src/query-builders/update.context.ts:45-57 | after the staging-table declaration (one line per key column plus three, or none) come exactly the UPDATE … SET line, the SET list, the OUTPUT clause, the WHERE block and the read-back, in that order |
| DeleteProps.DeleteParts | src/query-builders/delete.context.ts:41-59 | after the staging-table declaration (one line per key column plus three, or none) come exactly the DELETE FROM line, the OUTPUT clause, the WHERE block and the read-back, in that order |
| MutationBuilderProps.ItemRows | src/query-builders/update.builder.ts:18-37 | when every data item maps, there is one row per item, in order, and row k is the mapping of item k |
| MutationBuilderProps.HeadOnlyObjects | src/query-builders/update.builder.ts:13-18 | the head of an update builds only when the arguments are an object; reading `where` or `data` off anything else fails |
| FindContext.FindLines | src/query-builders/find.context.ts:84-164 | the chunks `toSql` collects: the two projection and FROM errors, the subtree error, otherwise head, joins, WHERE, ordering and paging, re-select and children; `FindContextProps.FindSqlErrors`, `LinesParts` and the clause lemmas state their content |
| FindContext.FindSql | src/query-builders/find.context.ts:84-166 | `toSql`: those chunks joined by line breaks, or the error; `FindContextProps.RenderableIff`, `StartsWithSelect`, `ChildTextsAre` and `ChildrenClause` state its meaning |
| FindContext.CondSql | src/query-builders/find.context.ts:168-191 | `toSqlCondition` of the find, aggregate and delete contexts as written: both sides through `toSqlConditionSide`, which prints a list as `undefined`; `FindContextProps.InConditionUndefined` and `SingleConditionAgrees` state its meaning |
| FindContext.CondSqlIntended | src/query-builders/where.builder.ts:88-100 | the condition renderer with a list printed as `(a,b,...)`, the corrected half of the first finding; `FindContextProps.InListRoundTrip` and `WhereBuilder.WhereCondSqlAgrees` state its meaning |
| ContextQuery.QueryLines | src/query-builders/context.query-builder.ts:64-129 | the chunks the `context.query-builder.ts` renderer collects, or its error; `ContextQueryProps.QuerySqlErrors` and `LinesParts` state their content |
| ContextQuery.QuerySql | src/query-builders/context.query-builder.ts:64-131 | that renderer's `toSql`: the chunks joined by line breaks, or the error; `ContextQueryProps.RenderableIff`, `StartsWithSelect`, `HeadClauses` and `ChildrenClause` state its meaning |
| FindBuilder.BuildPlan | src/query-builders/find.builder.ts:12-25 | `build`: the find plan of the root accessor, select, where, orderBy, paging and include, or the first error; `FindBuilderProps.BuildShape`, `SelectFold`, `OrderFold` and `IncludeExtends` state its meaning |
| FindQuery.RootPlan | src/query-builders/find.query-builder.ts:14-16 | the root accessor aliased `root` and the select loop; `FindQueryProps.RootShape` states its meaning |
| FindQuery.BuildPlan | src/query-builders/find.query-builder.ts:11-21 | `build` of `find.query-builder.ts`: root, select, where and include in that order, or the first error; `FindQueryProps.BuildShape`, `BuildNullish`, `BuildFrom` and `WhereParams` state its meaning |
| AggregateBuilder.FilterOf | src/query-builders/aggregate.builder.ts:13-17 | the root table, skip, take and the where builder's filters; `AggregateProps.HeadShape` states its meaning |
| AggregateBuilder.HeadOf | src/query-builders/aggregate.builder.ts:11-20 | everything `build` sets before the aggregate lists, or the error; `AggregateProps.HeadShape` states its meaning |
| AggregateBuilder.AgrRequest | src/query-builders/aggregate.builder.ts:30-44 | `buildAgrRequest`: the fold over the request's keys; `AggregateProps.AgrFold` and `RequestShape` state its meaning |
| AggregateBuilder.AggregatesOf | src/query-builders/aggregate.builder.ts:22-25 | the avg, max, min and sum lists in that order, or the first error; `AggregateProps.AggregatesShape` states its meaning |
| AggregateBuilder.AggregatePlanOf | src/query-builders/aggregate.builder.ts:10-28 | `build`: the head plan with the four lists, or the first error; `AggregateProps.AggregateBuildShape` states its meaning |
| AggregateContext.AggregateSql | src/query-builders/aggregate.context.ts:27-90 | `toSql` of the aggregate context, or its error; `AggregateProps.AggregateErrors`, `OutputOrder`, `AggregateTop`, `AggregatePaging` and `NoJoins` state its meaning |
| DeleteBuilder.HeadOf | src/query-builders/delete.builder.ts:10-14 | the where builder's filters and the entity, or the error; `MutationBuilderProps.DeleteBuildShape` states its meaning |
| DeleteBuilder.ReturningOf | src/query-builders/delete.builder.ts:16-20 | the staging table `@outputData` and the read-back plan reading from it, when a projection is asked for; `MutationBuilderProps.DeleteBuildShape` states its meaning |
| DeleteBuilder.DeletePlanOf | src/query-builders/delete.builder.ts:9-23 | `build` of a delete, or its error; `MutationBuilderProps.DeleteBuildShape` and `DeleteProjectionOnObjects` state its meaning |
| DeleteContext.DeleteLines | src/query-builders/delete.context.ts:23-59 | the chunks of the delete statement, or its error; `DeleteProps.LinesParts`, `DeleteParts`, `DeclareBlock` and `OutputBeforeWhere` state their content |
| DeleteContext.DeleteSql | src/query-builders/delete.context.ts:23-62 | `toSql` of the delete context; `DeleteProps.DeleteErrors` and `ReturningLast` state its meaning |
| UpdateBuilder.RowOf | src/query-builders/update.builder.ts:19-36 | the row map of one data item, or the error of its first bad field; `MutationBuilderProps.RowErrors`, `RowWrites`, `RowKeeps` and `RowKeys` state its meaning |
| UpdateBuilder.HeadOf | src/query-builders/update.builder.ts:11-37 | the filters, the entity, its primary keys and the rows, or the first error; `MutationBuilderProps.UpdateHeadShape`, `ItemRows` and `HeadOnlyObjects` state its meaning |
| UpdateBuilder.ReturningOf | src/query-builders/update.builder.ts:39-62 | the staging table and the read-back plan with the staged-keys join in front, when a projection is asked for; `MutationBuilderProps.UpdateReturningShape` and `SourceJoinShape` state its meaning |
| UpdateBuilder.UpdatePlanOf | src/query-builders/update.builder.ts:10-65 | `build` of an update, or its error; `MutationBuilderProps.UpdateBuildShape` states its meaning |
| UpdateContext.SqlValue | src/query-builders/update.context.ts:62-70 | `toSqlValue`; `UpdateProps.SqlValueKinds`, `StringLiteral` and `StringLiteralInjective` state its meaning |
| UpdateContext.UpdateLines | src/query-builders/update.context.ts:26-57 | the chunks of the update statement, or its error; `UpdateProps.LinesParts`, `UpdateParts`, `DeclareBlock` and `SetThenOutputThenWhere` state their content |
| UpdateContext.UpdateSql | src/query-builders/update.context.ts:26-60 | `toSql` of the update context; `UpdateProps.UpdateErrors` and `ReturningLast` state its meaning |
| CreateBuilder.RowOf | src/query-builders/create.builder.ts:14-32 | the check of one data item: every field a column or a relation, else the unexpected-field error; `MutationBuilderProps.CreateRowFold` states its meaning |
| CreateBuilder.CreatePlanOf | src/query-builders/create.builder.ts:8-36 | `build` of a create, or its error; `MutationBuilderProps.CreateBuildShape` and `CheckFold` state its meaning |
| WhereBuilder.WhereRun | src/query-builders/where.builder.ts:7-54 | `buildWhere`: the parameters and conditions after every field of `where`, and the error that stopped it; `WhereBuilder.ScalarFilter`, `InFilter`, `FieldErrors` and `WhereRunWellFormed` state its meaning |
| WhereBuilder.WhereCondSql | src/query-builders/where.builder.ts:88-100 | the where builder's `toSqlCondition`; `WhereBuilder.WhereCondSqlAgrees` states its meaning |
| WhereBuilder.ConditionsSql | src/query-builders/where.builder.ts:56-67 | `conditionsToSql`; `WhereBuilder.ConditionLines` and `BuiltConditionsRender` state its meaning |
| RecordsetConverter.RecordsetOf | src/recordset.converter.ts:48-73 | `convertEntityRecordset`: the converted rows of one recordset that belong to the parent, or the first error; `RecordsetProps.RecordsetRows`, `RowsKept` and `ChildCorrelation` state its meaning |
| RecordsetConverter.RowOf | src/recordset.converter.ts:83-111 | `convertEntityRecordsetRow`: the selection, then one property per include; `RecordsetProps.RowStart` states its meaning |
| RecordsetConverter.IncludeOf | src/recordset.converter.ts:88-107 | one include of a row; `RecordsetProps.IncludeErrors`, `ManyToOneInclude` and `ToManyInclude` state its meaning |
| RecordsetConverter.FindMany | src/recordset.converter.ts:43-45 | `convertFindMany`: the first recordset converted with no parent; `RecordsetProps.FindManyRows` and `FindManyReadsProjection` state its meaning |
| RecordsetConverter.MutationMany | src/recordset.converter.ts:12-25 | `convertMutationMany`: the summed row counts and the read-back; `RecordsetProps.MutationShape` states its meaning |
| RecordsetConverter.Aggregate | src/recordset.converter.ts:27-41 | `convertAggregate`; `RecordsetProps.AggregateShape` states its meaning |
| ObjectExpander.ParentFilter | src/object-expander.ts:35-49 | whether a row belongs to the parent item, or the missing-key error; `ObjectExpanderProps.ParentColumns` states its meaning |
| ObjectExpander.SimpleExpandOf | src/object-expander.ts:107-117 | `simpleExpandObject` as written, the as-written half of the second finding; `ObjectExpanderProps.SimpleExpandReads`, `SimpleAbsent` and `SimpleExpandDropsSibling` state its meaning |
| ObjectExpander.MergeExpandOf | src/object-expander.ts:107-117 | the expansion that merges into an existing container, the corrected half of the second finding; `ObjectExpanderProps.MergeExpandReads`, `MergeExpandKeepsSibling` and `MergeAgreesWhenHeadsDistinct` state its meaning |
| EntityConverter.EntitiesOf | src/entity.converter.ts:34-56 | the first loop of `fromModels`: one field-less entity per `mssql` model; `EntityConverterProps.FirstPassOrder`, `FirstPassInfos` and `EntityNaming` state its meaning |
| EntityConverter.ColumnOf | src/entity.converter.ts:63-90 | the column of a primitive field; `EntityConverterProps.ColumnDefaults` states its meaning |
| EntityConverter.RelationOf | src/entity.converter.ts:91-134 | the relation of a reference field, none for another source, or the relation errors; `EntityConverterProps.RelationTarget` and `RelationErrors` state its meaning |
| EntityConverter.FromModelsOf | src/entity.converter.ts:29-138 | `fromModels`: both loops, or the first error; `EntityConverterProps.FromModelsOk` and `FromModelsShape` state its meaning |
| EntityTransformer.ColumnFromField | src/entity-transformer.ts:26-36 | `columnTransformFromField`; `EntityTransformerProps.ColumnNaming` states its meaning |
| EntityTransformer.RelationFromField | src/entity-transformer.ts:38-77 | `relationFromField`, or its errors; `EntityTransformerProps.RelationResolved` states its meaning |
| EntityTransformer.EntityFromModel | src/entity-transformer.ts:79-106 | `entityTranformFromModel`, or the first field's error; `EntityTransformerProps.EntityShape` and `FieldsSorted` state its meaning |
| LegacyCreate.DestColumn | src/create-builder.ts:93-98 | the column that takes the parent's key, with the as-written and the corrected entity lookup; `LegacyCreateProps.FirstEntityWitness` and `NestedInsert` state its meaning |
| LegacyCreate.CreateOf | src/create-builder.ts:25-39 | `build` of `create-builder.ts`: the root objects inserted along the empty path; `LegacyCreateProps.CreateRoot` and `ModelIndices` state its meaning |

## Left out

- `UpdateBuilder.UpdatePlanOf`: `update.builder.ts:18-36` pushes each mapped row into
  `context.rows`. The update context (`update.context.ts:9-24`) never declares or
  initialises `rows`, so the code as written throws a `TypeError` at
  `update.builder.ts:36` for any non-empty `data`. The model keeps the rows the
  builder collects, in an `UpdatePlan.rows` field. It drops that `TypeError`, and
  `MutationBuilderProps.UpdateBuildShape` and `MutationBuilderProps.ItemRows` state
  properties of those rows.
- `AggregateBuilder.HeadOf`, `DeleteBuilder.HeadOf`, `UpdateBuilder.HeadOf`: these
  builders call `FindQueryBuilder.buildWhere`, which `find.builder.ts` does not
  define. As written, each of the three throws whenever `where` is truthy. The model
  takes the where builder as a parameter (`WhereBuilder.WhereFn`) and drops that
  error. `WhereBuilder.BuildWhere` is the natural argument.
- `Js.LooseEqTrue`: `v == true` holds only for `true`, `1` and `'1'`. JavaScript's
  loose equality also accepts other values that convert to the number 1, such as
  `'01'`, `' 1'` and `[1]`. The entity converter's identity flag reads this test.
- `CriteriaBuilder.WhereEntries`: a string is treated as having no keys. In
  JavaScript, `for…in` and `for…of` over a non-empty string visit its indices, and
  `criteria-builder.ts:184-201` would throw `Unexpected property name: 0` for
  them. The same holds for a string item of an `_and` list.
- `Js.OwnProperties`: a string or an array yields no property names.
  `Object.getOwnPropertyNames` also lists their indices and `length`, which the
  legacy create and update builders would then read (`create-builder.ts:81`,
  `update-builder.ts:37`).
- `LegacyCreate.Items`: array-like objects are not iterated as arrays.
- `LegacySchema.EntityOfModel`, `EntityConverter.EntityIndex`: models are compared
  by value. The source compares them by reference (`x.info === model` at
  `create-builder.ts:112`, `criteria-builder.ts:38`, `:137-138` and `:206`,
  `object-expander.ts:23` and `:94`, and `entity.converter.ts:111`). The two differ
  only when two distinct model objects hold equal contents; then the model picks the
  first such entity where the source picks the one built from that very object.
- `EntityTransformer.ColumnFromField`, `EntityTransformer.EntityFromModel`: a truthy
  `@column(name)`, `@column(type)`, `@entity(name)` or `@entity(schema)` argument is
  stored as its string form (`Js.JsString`). `entity-transformer.ts:32-33` and `:101-102` keep
  the raw argument value. The two differ only for a non-string argument, which prints
  the same text in the SQL.
- Numbers are integers (`Js.Num(int)`). Fractions, `NaN`, infinities and
  exponent notation in printed numbers are not modelled.
- Dates are opaque ISO strings (`Js.Date(iso)`): `Date.toISOString` is not computed.
- Objects list their properties in insertion order. JavaScript lists
  integer-like keys first, in ascending order. No builder relies on that, except
  through such keys of user data.
- The `mssql` type table (`TYPES`, `ISqlType`, `IColumnOptions`) is a local
  enumeration with optional length, precision and scale. Only the cases that
  `toSqlDeclare` distinguishes are kept.
- Executing the rendered SQL is not modelled: which rows a statement affects or
  returns is an input of the recordset converter, never computed. This also covers
  `src/index.ts` (connection pool, the async `request.query`, `request.input`
  parameter binding) and `console.log` at `update-builder.ts:67`.
- `src/context.ts`, `src/interfaces.ts` and `src/interfaces/*.ts` are type
  declarations only. They appear as the datatypes of `schema.dfy` and
  `legacy_schema.dfy`.
- `src/directives.ts` and `src/directives/*.ts` are static registration data.
- `create.context.ts`: `toSql` returns the empty string. Only its fields are
  modelled, as the target of `create.builder.ts`.
- AND/OR condition trees: every builder and renderer in the source throws on
  them, and the model throws the same errors. No tree renderer is modelled.
- `where.builder.ts:3` imports an interface that `find.context.ts` does not
  export. The where builder is modelled against the find context's fields.
- `entity.converter.ts:29` takes one argument, and the model follows that
  signature.
- `find.builder.ts:172-176` gives a one-to-many join the accessor
  `{type: 'object', name}`, while `find.context.ts:202-206` reads `.object` from
  it. The model renders it as written, so the name prints as `undefined`
  (`FindContextProps.ObjectJoinLosesName`).

## Findings

| source | as written | input that shows it | evidently intended | confidence | as-written member | corrected member |
|---|---|---|---|---|---|---|
| src/query-builders/find.context.ts:167-191 | `toSqlCondition` passes the right side through `toSqlConditionSide`, which has no case for an array. An `in` list prints as `undefined`, and so do the copies at `aggregate.context.ts:92-114` and `delete.context.ts:64-86`. | `where: {id: {in: [1, 2]}}` renders `[root].[id] in undefined` | `[root].[id] in (@root_id_0,@root_id_1)`, as `where.builder.ts:92-93` writes it and the `in` filter's expected SQL spells it out | not executed | `FindContext.CondSql` (used by the find, aggregate and delete renderers); `FindContextProps.InConditionUndefined` proves that every list renders as `<left> <op> undefined` | `FindContext.CondSqlIntended`; `FindContextProps.InListRoundTrip` proves that the list prints in parentheses and splits back into its sides; `WhereBuilder.WhereCondSqlAgrees` proves the update context's renderer equal to it |
| src/object-expander.ts:107-117 | `simpleExpandObject` assigns `container[k] = {}` for every non-final segment. A second dotted key with the same first segment replaces the object the first key built. | `{"p.a": 1, "p.b": 2}` expands to `{p: {b: 2}}` | `{p: {a: 1, b: 2}}` | not executed | `ObjectExpander.SimpleExpandOf`; `ObjectExpanderProps.SimpleExpandDropsSibling` | `ObjectExpander.MergeExpandOf`; `ObjectExpanderProps.MergeExpandReads` and `ObjectExpanderProps.MergeExpandKeepsSibling`; `ObjectExpanderProps.MergeAgreesWhenHeadsDistinct` proves that the two agree when the first segments are distinct |
| src/criteria-builder.ts:153-158 | Inside `buildManyToOneRelations`, the loop over the nested many-to-one relations ignores the contexts each recursive call returns. | root → many-to-one `a` → many-to-one `b` → one-to-many `c`: the query that `c` builds is never returned | a nested relation's contexts are returned after those already built, as the top-level loop does | not executed | `CriteriaBuild.ManyToOneLoop` with `collect` false (`keepNested` false); `CriteriaBuildProps.NestedContextsDropped` and `CriteriaBuildProps.NestedContextWitness` | `CriteriaBuild.ManyToOneLoop` with `collect` true (`keepNested` true); `CriteriaBuildProps.NestedContextsKept` |
| src/create-builder.ts:94-98 | `context.entities.find(() => parent.relation.dest.model === parent.relation.dest.model)` compares a value with itself, so it always picks the first entity. | a `Post` whose single-valued `author` leads to `User`, with `Post` listed first: reading the destination column crashes | the entity whose model is the relation's destination model | not executed | `LegacyCreate.DestColumn` with `corrected` false; `LegacyCreateProps.FirstEntityWitness` | `LegacyCreate.DestColumn` with `corrected` true; `LegacyCreateProps.NestedInsert` |
