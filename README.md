# dbx SELECT builder, modelled in Dafny

dbx is a Go library that builds SQL statements through a fluent builder and
runs them against a database. This project models its SELECT builder as
`select_test.go` exercises it:

- the builder state. Each clause is set, appended to, or ANDed/ORed with a new
  condition, one call at a time.
- the renderer. It turns that state into the SQL text of a MySQL-style dialect
  (backtick-quoted identifiers) and a map of named parameters. The
  statement's clauses come in a fixed order, and UNION sub-queries are
  appended after the parenthesised statement.
- the execution hooks. Exec hooks wrap every execution. One and All hooks wrap
  the binding of rows into a destination.
- `Model(pk, dest)`. It checks the destination's primary key and then looks up
  the first row that passes the existing WHERE filter AND the key condition.

The behaviour modelled is the behaviour the test file asserts. Where the tests
do not reach a case, the model makes these choices:

- a dotted name (`t.c`) is quoted part by part, and a part that already
  holds a backtick, or is `*`, is left alone;
- an empty clause leaves no text and no stray space;
- a negative limit or offset removes the clause;
- a bound parameter wins over a clause parameter of the same name;
- `Model` binds the first row of the statement's LIMIT/OFFSET window, so
  `LIMIT 0` or an offset past the matching rows gives `ErrNoRows`.

Files:

- `values.dfy`: values, parameter maps, rows, errors and statuses.
- `text.dfy`: joining and splitting strings, and decimal rendering of numbers.
- `quoting.dfy`: identifier quoting and ORDER BY terms with a direction.
- `expressions.dfy`: WHERE/HAVING/ON conditions, their text, their parameters
  and which rows they keep.
- `select_sql.dfy`: the clause state as a value and the SQL/parameter renderer.
- `hooks.dfy`: the Exec and One/All hook chains. It gives their meaning as
  functions and the step-by-step invocation as a method.
- `binder.dfy`: the primary-key lookup behind `Model`.
- `select_query.dfy`: the builder class `SelectQuery`. Its fields are the clauses
  and the hook lists, and its methods change them in place.
- `select_examples.dfy`: the scenarios of `select_test.go`, replayed on the
  builder with their exact expected results.

## Model

| member | source | states |
|---|---|---|
| SelectBuilder.SelectQuery.constructor | select_test.go:26-26 | `Select(cols...)` starts with the given columns, every other clause empty and no hooks |
| SelectBuilder.SelectQuery.Select | select_test.go:26-26 | replaces the column list and changes no other clause |
| SelectBuilder.SelectQuery.AndSelect | select_test.go:27-27 | appends columns after the existing ones, nothing else changes |
| SelectBuilder.SelectQuery.Distinct | select_test.go:28-28 | sets the DISTINCT flag only |
| SelectBuilder.SelectQuery.SelectOption | select_test.go:29-29 | sets the select option only |
| SelectBuilder.SelectQuery.From | select_test.go:30-30 | replaces the table list only |
| SelectBuilder.SelectQuery.Where | select_test.go:31-31 | replaces the WHERE condition only |
| SelectBuilder.SelectQuery.AndWhere | select_test.go:32-32 | ANDs the new condition onto the existing one, nothing else changes |
| SelectBuilder.SelectQuery.OrWhere | select_test.go:33-33 | ORs the new condition onto the existing one, nothing else changes |
| SelectBuilder.SelectQuery.Join | select_test.go:34-36 | appends one join entry after the earlier ones |
| SelectBuilder.SelectQuery.InnerJoin | select_test.go:34-34 | appends an INNER JOIN with its condition |
| SelectBuilder.SelectQuery.LeftJoin | select_test.go:35-35 | appends a LEFT JOIN, here with no condition |
| SelectBuilder.SelectQuery.RightJoin | select_test.go:36-36 | appends a RIGHT JOIN |
| SelectBuilder.SelectQuery.CrossJoin | select_test.go:34-36 | appends a CROSS JOIN, like the other join kinds |
| SelectBuilder.SelectQuery.OrderBy | select_test.go:37-37 | replaces the ORDER BY list only |
| SelectBuilder.SelectQuery.AndOrderBy | select_test.go:38-38 | appends to the ORDER BY list only |
| SelectBuilder.SelectQuery.GroupBy | select_test.go:39-39 | replaces the GROUP BY list only |
| SelectBuilder.SelectQuery.AndGroupBy | select_test.go:40-40 | appends to the GROUP BY list only |
| SelectBuilder.SelectQuery.Having | select_test.go:41-41 | replaces the HAVING condition only |
| SelectBuilder.SelectQuery.AndHaving | select_test.go:42-42 | ANDs onto the HAVING condition only |
| SelectBuilder.SelectQuery.OrHaving | select_test.go:43-43 | ORs onto the HAVING condition only |
| SelectBuilder.SelectQuery.Limit | select_test.go:44-44 | sets the limit; a negative value removes the clause |
| SelectBuilder.SelectQuery.Offset | select_test.go:45-45 | sets the offset; a negative value removes the clause |
| SelectBuilder.SelectQuery.Bind | select_test.go:46-46 | replaces the bound parameters only |
| SelectBuilder.SelectQuery.AndBind | select_test.go:47-47 | merges into the bound parameters; the key set is the union and a later value wins |
| SelectBuilder.SelectQuery.Union | select_test.go:60-60 | appends `UNION` with the sub-query's text and parameters taken at that moment |
| SelectBuilder.SelectQuery.UnionAll | select_test.go:60-60 | appends `UNION ALL` in the same way |
| SelectBuilder.SelectQuery.SQL | select_test.go:50-51 | the text opens with the SELECT clause, or with the parenthesised statement when unions are attached |
| SelectBuilder.SelectQuery.Params | select_test.go:46-52 | the WHERE, HAVING and bound names are all parameters, and a bound value wins |
| SelectBuilder.SelectQuery.Build | select_test.go:48-48 | the built query carries the current SQL text and parameters, and the builder is unchanged |
| SelectBuilder.SelectQuery.WithExecHook | select_test.go:170-173 | registers an Exec hook after the earlier ones |
| SelectBuilder.SelectQuery.WithOneHook | select_test.go:268-271 | registers a One hook after the earlier ones |
| SelectBuilder.SelectQuery.WithAllHook | select_test.go:320-323 | registers an All hook after the earlier ones |
| SelectBuilder.SelectQuery.Execute | select_test.go:179-242 | Row, Rows and Column run only the Exec hooks around the execution |
| SelectBuilder.SelectQuery.One | select_test.go:277-292 | One runs the Exec hooks around the One hooks around the binding |
| SelectBuilder.SelectQuery.All | select_test.go:329-344 | All runs the Exec hooks around the All hooks around the binding |
| SelectBuilder.SelectQuery.Model | select_test.go:124-160 | a destination error is returned before any hook runs and binds nothing; otherwise the One path runs with the lookup's status, and the row bound is the lookup's row exactly when every hook calls on and the lookup succeeds |
| Expressions.Render | select_test.go:31-33 | a condition renders empty exactly when it has no text |
| Expressions.Combine | select_test.go:31-33 | AND/OR with an empty operand renders the other operand; two real operands are parenthesised around the connector; the parameters of both are kept |
| Expressions.WhereAndOr | select_test.go:31-33 | `Where(A).AndWhere(B).OrWhere(C)` renders `((A) AND (B)) OR (C)` and keeps all three parameter sets |
| Expressions.CombineAndHolds | select_test.go:136-137 | ANDing keeps exactly the rows both conditions keep |
| Expressions.CombineOrHolds | select_test.go:33-33 | ORing two real conditions keeps the rows either one keeps |
| Quoting.QuoteName | select_test.go:20-21 | a plain table or column name is wrapped in backticks |
| Quoting.OrderTermWithDirection | select_test.go:37-37 | `age DESC` renders as the quoted name followed by the direction as written |
| Quoting.OrderTerm | select_test.go:37-38 | an ORDER BY name without whitespace renders exactly as the quoted name |
| SelectSql.ColumnListAppend | select_test.go:26-27 | the column text of `a + b` is the text of `a`, a comma, then the text of `b` |
| SelectSql.Statement | select_test.go:50-51 | the statement text opens with its SELECT clause |
| SelectSql.BuildSql | select_test.go:60-61 | without unions the text is the statement, opening with the SELECT clause; with unions it opens with the parenthesised statement |
| SelectSql.BuildParams | select_test.go:46-52 | the parameter keys are those of every clause and the bound ones; a bound value wins on a clash |
| SelectSql.SelectStar | select_test.go:20-21 | no columns renders `SELECT *` |
| SelectSql.EmptyClausesOmitted | select_test.go:20-21 | absent clauses leave no text and no stray space |
| SelectSql.AllClausesPresent | select_test.go:50-50 | with every clause present, the nine clauses appear in their fixed order, one space apart |
| SelectSql.ClausesIgnoreUnions | select_test.go:60-61 | the statement's clauses do not depend on the unions appended |
| SelectSql.FirstUnion | select_test.go:60-61 | the first union parenthesises the statement and follows it |
| SelectSql.UnionAppend | select_test.go:60-61 | each further union is appended after the earlier ones |
| SelectSql.BoundParamsOnly | select_test.go:54-55 | with no clause parameters, the parameters are exactly the bound ones |
| Hooks.Labels | select_test.go:277-292 | one hook-called event per hook, in registration order |
| Hooks.ExecChain | select_test.go:170-176 | a non-empty Exec chain starts with its first hook, and its trace is no longer than the hooks plus the inner trace |
| Hooks.BindChain | select_test.go:268-274 | a non-empty One/All chain starts with its first hook; the trace has at least one and at most one more event than there are hooks |
| Hooks.Run | select_test.go:277-292 | a run starts with the first Exec hook, or with the first One/All hook when there is no Exec hook, and has at most one event per hook plus the operation |
| Hooks.Invoke | select_test.go:280-289 | the step-by-step invocation produces exactly the nested-chain outcome |
| Hooks.ExecChainStops | select_test.go:170-176 | the first Exec hook that does not call on ends the run; its error or nil is returned unchanged and later hooks do not run |
| Hooks.ExecChainPassesThrough | select_test.go:244-258 | Exec hooks that all call on are invoked in order around an unchanged inner outcome |
| Hooks.BindChainStops | select_test.go:268-274 | a One/All hook that returns without calling on stops the chain with its error or nil |
| Hooks.BindChainPassesThrough | select_test.go:295-310 | One/All hooks that all call on bind once, last, into the destination they substituted |
| Hooks.ExecChainPrefix | select_test.go:277-292 | an Exec chain's trace is a prefix of its hooks followed by the inner trace |
| Hooks.BindChainPrefix | select_test.go:277-292 | a One/All chain's trace is a prefix of its hooks followed by the binding |
| Hooks.RunOrder | select_test.go:329-344 | every run's trace is a prefix of: all Exec hooks, then all One/All hooks, then the operation |
| Hooks.ExecStopNoOp | select_test.go:170-176 | an Exec hook that does not call on keeps the operation from running |
| Hooks.BindStopNoOp | select_test.go:320-326 | a One/All hook that does not call on keeps the operation from running |
| Hooks.AllProceedOp | select_test.go:347-362 | when every hook calls on, the operation runs and its status is returned |
| Hooks.RunInvokesOp | select_test.go:244-258 | the operation runs iff every hook calls on, and then its status is the caller's |
| Hooks.FirstStop | select_test.go:170-176 | finds the first Exec hook that does not call on |
| Hooks.FirstBindStop | select_test.go:268-274 | finds the first One/All hook that does not call on |
| Binder.PrimaryKeyColumn | select_test.go:143-160 | a non-struct destination, no key and a composite key each give their own error; exactly one key column succeeds |
| Binder.FirstMatch | select_test.go:124-131 | the result is the first row passing WHERE AND key, or `ErrNoRows` iff there is none |
| Binder.Matching | select_test.go:133-140 | a row is in the result iff it is in the table and passes WHERE AND key; the result is empty iff no row passes |
| Binder.MatchAt | select_test.go:133-140 | succeeds iff the position is inside the result, with the row at that position; past the end it is `ErrNoRows` |
| Binder.FirstMatchIsFirstResult | select_test.go:124-131 | the first matching row is the result's first row |
| Binder.ModelLookup | select_test.go:133-160 | destination errors come first; success means the row at the OFFSET position of the rows passing WHERE AND key; `ErrNoRows` iff LIMIT is 0 or the offset is past those rows |
| Binder.ModelWhereConflict | select_test.go:136-137 | a WHERE that pins the key to another value yields `ErrNoRows` whatever the LIMIT and OFFSET |
| Binder.ModelFindsKey | select_test.go:139-140 | with a consistent WHERE, the first row carrying the key is found |
| SelectExamples.MinimalRendering | select_test.go:20-23 | `Select().From("users")` renders ``SELECT * FROM `users` `` with no parameters |
| SelectExamples.MinimalSelect | select_test.go:20-23 | the minimal query built on the class gives that text and zero parameters |
| SelectExamples.FullSelectClause | select_test.go:26-29 | the SELECT clause of the full query |
| SelectExamples.FullFromClause | select_test.go:30-30 | its FROM clause |
| SelectExamples.FullJoinClause | select_test.go:34-36 | its three joins, the first with its ON condition unquoted |
| SelectExamples.FullWhereClause | select_test.go:31-33 | its WHERE clause |
| SelectExamples.FullGroupByClause | select_test.go:39-40 | its GROUP BY clause |
| SelectExamples.FullHavingClause | select_test.go:41-43 | its HAVING clause |
| SelectExamples.FullOrderByClause | select_test.go:37-38 | its ORDER BY clause, with `DESC` outside the quotes |
| SelectExamples.FullPaging | select_test.go:44-45 | its LIMIT and OFFSET clauses |
| SelectExamples.FullRendering | select_test.go:50-51 | the full query's clause state renders exactly the expected statement |
| SelectExamples.FullParams | select_test.go:46-52 | its parameters are exactly `id` and `age`, two of them |
| SelectExamples.FullChain | select_test.go:26-47 | the full call chain on the class leaves exactly the full clause state |
| SelectExamples.FullSelect | select_test.go:26-52 | the full query built on the class has the expected text and two parameters |
| SelectExamples.AndBindOnFreshQuery | select_test.go:54-55 | `AndBind` on a fresh query gives one parameter |
| SelectExamples.StarQuery | select_test.go:58-59 | `Select().From(t)` builds ``SELECT * FROM `t` `` with no parameters |
| SelectExamples.UnionRendering | select_test.go:60-62 | the union statement's expected text |
| SelectExamples.UnionSelect | select_test.go:57-62 | the union query built on the class has that text |
| SelectExamples.UnionTakesSnapshot | select_test.go:58-60 | later changes to a sub-query's builder do not change the union's text |
| SelectExamples.AndSelectAppends | select_test.go:26-27 | `Select(a).AndSelect(b)` renders as `Select(a + b)` |
| SelectExamples.HookErrors | select_test.go:168-177 | a hook returning an error gives that error on Row, One and All, and nothing is executed |
| SelectExamples.ExecHookReturnsNil | select_test.go:179-242 | an Exec hook returning nil is called once, the caller gets nil and nothing is executed |
| SelectExamples.ExecHookCallsOp | select_test.go:244-258 | an Exec hook that calls on is invoked once and the statement runs once |
| SelectExamples.BindHookCallsOp | select_test.go:295-311 | a One/All hook calling on with its own destination binds there |
| SelectExamples.SubstitutingHook | select_test.go:347-362 | a single substituting hook is recorded, then the operation runs on its destination |
| SelectExamples.HookCallOrder | select_test.go:277-292 | the trace of an Exec hook around a One (All) hook is exactly `exec`, `one` (`all`) |
| SelectExamples.ExecThenBindReturn | select_test.go:329-344 | an Exec hook that calls on around a hook that returns nil leaves exactly those two calls |
| SelectExamples.ModelCases | select_test.go:133-140 | `Where(id=1).Model(2)` gives `ErrNoRows` and binds nothing; `Where(id=2).Model(2)` succeeds and binds customer 2, email `user2@example.com` |
| SelectExamples.ModelDestinationErrors | select_test.go:143-160 | a non-struct destination, a struct without key and a composite key give their own errors and no hook trace |
| SelectExamples.ModelWithoutWhere | select_test.go:124-131 | `Model(2, &customer)` with no WHERE succeeds and binds customer 2, email `user2@example.com` |
| SelectExamples.ModelWithLimitZero | select_test.go:124-131 | with `Limit(0)` the same lookup gives `ErrNoRows` and binds nothing |

## Left out

- `TestSelectQuery_Data` (lines 65-100) reads real rows from a prepared database. Result data, scanning and the `int` destination errors of `One`/`All` are not modelled.
- `HashExp{"id": 1}` conditions are modelled as raw fragments (`id=1`). How the database reads them is a parameter of type `(string, Row) -> bool`. HashExp's own SQL rendering and placeholders are not modelled.
- SelectBuilder.SelectQuery.Model: it does not add the key condition to the WHERE text. The lookup is modelled by its meaning (WHERE AND key over an abstract row list), not by the SQL it issues.
- SelectBuilder.SelectQuery.Model: it does not take the default table from the struct name ("without specifying FROM"), and neither do `One` and `All` (select_test.go:106-122). The table is the row list passed in, or the operation passed to `One`/`All`.
- SelectBuilder.SelectQuery.Model: the lookup applies WHERE, the key, OFFSET and LIMIT, but not JOIN, GROUP BY, HAVING or ORDER BY. The row list is taken as already in result order.
- SelectBuilder.SelectQuery.Execute: it merges `Row`, `Rows` and `Column` into one path. Its outcome is the hook trace and the status, not the data read.
- SelectExamples.BindHookCallsOp: it shows the rows going to the hook's own destination. It does not show the values bound there (`other.ID == 2`, two users), because result data is not modelled.
- Hook closures are arbitrary Go functions. A hook is reduced to three behaviours: return an error, return nil without calling on, or call on (possibly with another destination) and return what the operation returns. A hook that calls on and then changes the error, or calls on twice, is not modelled.
- Fluent methods return the builder itself in Go. Here they are methods that change the object in place, and a chain is a sequence of calls.
- The database handle, dialect selection (`getDB`), contexts and the statement's placeholder binding are not modelled.
- Select-column aliases (`"id AS x"`) and the flattening of nested AND/OR of the same connector are not modelled. Conditions stay binary, as the test's `((A) AND (B)) OR (C)` shows.
- `Limit`/`Offset` take an unbounded integer rather than Go's `int64`. No overflow is possible in the model.
- The `db:"pk"` tag scan of a struct is reduced to the list of key columns it finds.
