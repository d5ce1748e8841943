# SQb in Dafny

A model of SQb, a small Go library that builds PostgreSQL `SELECT` statements for a table
described by a tagged model struct, and runs them against a driver while accumulating the
scanned rows. The model covers:

- the **dialect**: the `psql` struct tag and the `$n` placeholders;
- the **parameter list** that interns bound values by a linear scan;
- the **clause tree**: filters, compound clauses, order-by clauses and limits, each
  rendering to SQL text while recording its values in one shared parameter list;
- the **table**: its columns, taken from the model's fields; receivers bound to the
  columns, with kind checks; the fluent filter, order and limit builders; and `Build`,
  which emits the statement and pairs the scan list with the selected columns;
- the **row accumulation protocol**: the generic accumulator and `Query.Run`'s cursor loop;
- the **nullable adapters** and the kind to adapter table used in the type checks.

Modules follow the Go files:

| file | module | what it holds |
|---|---|---|
| `dialect.dfy` | `Dialects` | the psql dialect |
| `param_list.dfy` | `Params` | `ParamList` (a class) and `Intern`, the function it is proved against |
| `clause.dfy` | `Clauses`, `ClauseFacts`, `ClauseExamples` | clause datatypes and their `Build` methods; the `Render*` functions that specify them; what rendering does; the rendered examples of the clause tests |
| `column.dfy` | `Columns` | the `Column` class |
| `table.dfy` | `Tables` | the `Table` class with the methods of `table.go` and `table_filters.go`; the `Statement` its `Build` is proved against |
| `table_facts.dfy`, `table_examples.dfy` | `TableFacts`, `TableExamples` | the statement's parameters and text shapes; the repository's table scenarios |
| `accumulator.dfy` | `Accumulators` | the generic accumulator |
| `query.dfy`, `query_examples.dfy` | `Queries`, `QueryExamples` | `Query` and `Run` over a driver given as data |
| `type_adaptors.dfy` | `TypeAdaptors` | `nullType` and one generic nullable adapter |

Helper modules:

| file | module | what it holds |
|---|---|---|
| `wrappers.dfy` | `Wrappers` | Option, Result, Outcome |
| `values.dfy` | `Values` | reflect kinds, type descriptors, bound values, receiver descriptors, `Cell` (a Go pointer) |
| `decimal.dfy` | `Decimal` | `%d` and a parser that inverts it |
| `text.dfy` | `Text` | `strings.Join`, Go's string order, `Sprintf` with one `%s` |
| `sorting.dfy` | `Sorting` | `sort.Strings` |

Go panics become a `Fatal` value in an `Outcome` or `Result`. `Run`'s errors are a
`RunError`.

The quirks of the code are modelled as written, and lemmas exhibit them:

- a repeated value gets the placeholder of its 0-based position (`$0` for the first
  value), not the one it was given when appended;
- `NewOrderByClause` ignores its direction and always sorts ascending;
- an order-by clause binds its column name as a parameter;
- `Build` puts the ordering right after the table name or filter, with no `ORDER BY`
  keyword;
- `SetColumnReceiver` wraps a slice receiver with `pq.Array` and then overwrites the
  wrapped value with the raw one;
- `AddOrderByClause` does not check that the column exists.

## Model

| member | source | states |
|---|---|---|
| Dialects.StructTagIsPsql | dialect.go:13-15 | the psql dialect reads the `psql` tag, the key of the test model's fields |
| Dialects.StructTag | dialect.go:13-15 | the tag key of the psql dialect; `StructTagIsPsql` states it is `psql` |
| Dialects.FormatParam | dialect.go:17-19 | `$` and then `%d` of n; `FormatParamRoundTrip` reads n back from it and `FormatParamInjective` makes distinct numbers distinct |
| Dialects.FormatParamRoundTrip | dialect.go:17-19 | a placeholder is `$` followed by the decimal digits of n (with a sign when n is negative), and n is read back from them |
| Dialects.FormatParamInjective | dialect.go:17-19 | distinct parameter numbers give distinct placeholders |
| Dialects.FormatParamOne | dialect.go:17-19 | parameter 1 is written `$1` |
| Decimal.NatToString | dialect.go:18 | `%d` of a natural number is a non-empty run of digits, one digit exactly below ten |
| Decimal.ParseNatToString | dialect.go:18 | the digits of a natural number are read back as that number |
| Decimal.ParseIntToString | dialect.go:18 | `%d` of any int is read back as that int by the parser |
| Decimal.IntToStringInjective | dialect.go:18 | `%d` gives distinct texts for distinct ints |
| Decimal.IntToStringHasNoSpace | clause.go:141-148 | a number rendered by `fmt` contains no space, so the LIMIT fragment can be split into words |
| Params.IndexOf | param_list.go:16-19 | the position the dedup scan stops at holds the value, and no earlier position does |
| Params.IndexOfUnique | param_list.go:16-19 | only the first equal position satisfies that |
| Params.Intern | param_list.go:15-24 | one call of `RecordValueAndReturnParam` as a function of the list; `InternKeepsList`, `InternNewValue` and `InternPresentValue` state what it does to the list and which placeholder it gives |
| Params.InternKeepsList | param_list.go:15-24 | an interning step keeps the list duplicate-free, keeps the old list as a prefix, grows it by at most one, and leaves the value in it |
| Params.InternNewValue | param_list.go:22-23 | a new value is appended, and its placeholder carries the new length, i.e. its 1-based position |
| Params.InternPresentValue | param_list.go:16-19 | a present value leaves the list unchanged and gets the placeholder of its 0-based position, which names the entry before it |
| Params.RepeatedValueGetsOtherPlaceholder | param_list.go:15-24 | interning the same new value twice hands out `$(n+1)` and then `$n`, two different placeholders |
| Params.ParamList.constructor | param_list.go:8-13 | a new list is empty and keeps its dialect |
| Params.ParamList.RecordValueAndReturnParam | param_list.go:15-24 | the scan loop's new list and placeholder are those of `Intern` on the old list |
| Params.ParamList.GetParamList | param_list.go:26-28 | returns the stored values |
| Text.FirstVerb | clause.go:43 | finds the first `%s` of a template, or reports that there is none |
| Text.Sprintf1FillsSlot | clause.go:43 | a template with a single `%s` gets exactly that slot replaced by the argument |
| Text.LexLessIrreflexive | table.go:154 | Go's string order is irreflexive |
| Text.LexLessTransitive | table.go:154 | and transitive |
| Text.LexLessTotal | table.go:154 | and total on distinct strings |
| Text.LexLessAsymmetric | table.go:154 | and asymmetric |
| Sorting.NotLessTransitive | table.go:154 | "not less than" is transitive |
| Sorting.InsertKeepsSorted | table.go:154 | inserting x after the smaller elements and before the rest keeps a list sorted |
| Sorting.Insert | table.go:154 | one insertion gives a sorted list with x added to the multiset |
| Sorting.SortStrings | table.go:154 | `sort.Strings` gives a sorted permutation of its input |
| Sorting.RepeatedTwice | table.go:149-154 | a value at two positions occurs twice in the multiset |
| Sorting.SortedSetIsStrict | table.go:149-154 | the sorted names of a map's keys are strictly increasing and are exactly those keys |
| Sorting.StrictlySortedUnique | table.go:149-163 | two strictly increasing lists with the same names are equal, so the selected columns have a single order |
| Clauses.FilterClause.Build | clause.go:38-44 | the text and the new parameter list are those of `RenderFilter` |
| Clauses.CompoundClause.Build | clause.go:60-76 | the children are built left to right on one list; the text and list are those of `RenderCompound` |
| Clauses.OrderByClause.Build | clause.go:121-127 | the text and list are those of `RenderOrderBy` |
| Clauses.Clause.Build | clause.go:14-17 | a clause builds as its variant does |
| Clauses.FillCompoundTemplate | clause.go:61-65 | the compound template is `(%s)` for two or more children and `%s` otherwise, filled with the joined text |
| Clauses.PredicatesSnoc | clause.go:69-73 | one more sibling renders from the list its predecessors leave behind, and its text goes last |
| Clauses.NewPrimitiveFilterClause | clause.go:26-35 | the filter a table's builders make; `ClauseFacts.PrimitiveFilterTemplate` states its template for all inputs |
| Clauses.NewCompoundClause | clause.go:55-57 | an empty compound with the given operator; `ClauseFacts.CompoundShape` states that it renders as `""` with no parameter |
| Clauses.AddClause | clause.go:79-82 | appends a child; `ClauseFacts.AddClauseRendersLast` states that it renders last, the operator stays and the count grows by one |
| Clauses.NumClauses | clause.go:84-86 | the number of children; `ClauseFacts.AddClauseRendersLast` and `ClauseFacts.CompoundShape` relate it to `AddClause` and to the rendered shape |
| Clauses.GetOrderByValue | clause.go:96-105 | the direction word; `ClauseFacts.OrderByValues` states ASC, DESC and `""` for anything else |
| Clauses.NewOrderByClause | clause.go:113-119 | the ordering a table's builder makes; `ClauseFacts.OrderByIgnoresDirection` and `ClauseFacts.OrderByRender` state that it is always ascending |
| Clauses.NewLimitClause | clause.go:134-139 | the row count and offset as given; `ClauseExamples.LimitExamples` renders two of them |
| Clauses.LimitText | clause.go:141-148 | `LimitClause.Build`; `ClauseExamples.LimitTextRoundTrip` reads the row count back, and the offset exactly when it is positive |
| ClauseFacts.AppendNewConcat | param_list.go:15-24 | interning a run of values in two parts is interning it in one go |
| ClauseFacts.AppendNewSpec | param_list.go:15-24 | interning a run keeps the list duplicate-free, keeps the old list as a prefix, and adds exactly the missing values |
| ClauseFacts.AppendNewDistinct | param_list.go:22-23 | distinct new values are appended in order |
| ClauseFacts.RenderRecordsUses | clause.go:38-127 | a clause's parameter list is the old list with the values its tree uses interned depth first, left to right |
| ClauseFacts.PredicatesRecordUses | clause.go:69-73 | the same for a run of siblings |
| ClauseFacts.RenderAppendsParams | clause.go:38-127 | rendering keeps the list duplicate-free and only appends; with distinct new values they are numbered depth first, left to right |
| ClauseFacts.CompoundShape | clause.go:60-76 | zero children render as `""` with no parameter, one child as itself unwrapped, more as `(` + children joined by ` op ` + `)` |
| ClauseFacts.AddClauseRendersLast | clause.go:79-86 | `AddClause` puts the new child's text last, renders it from the list its siblings leave, keeps the operator and adds one to `NumClauses` |
| ClauseFacts.PrimitiveFilterTemplate | clause.go:26-35 | for any column, operator and parameter template, the template is the three joined by spaces, `%s` standing in for an empty parameter template, and the value is kept |
| ClauseFacts.PrimitiveFilterRender | clause.go:26-44 | a primitive filter renders as `column operator template`, `%s` standing in for an empty template, with the slot filled by the value's placeholder |
| ClauseFacts.NullFilterRender | clause.go:39-41 | a filter without a value renders its template verbatim and records nothing |
| ClauseFacts.OrderByRender | clause.go:113-127 | an empty column renders as `""`; otherwise the column name is interned and the text is its placeholder + ` ASC`, whatever the requested direction |
| ClauseFacts.OrderByIgnoresDirection | clause.go:113-119 | asking for Descending gives the same clause as Ascending, and it does not say DESC |
| ClauseFacts.OrderByValues | clause.go:96-105 | Ascending is `ASC`, Descending is `DESC`, any other number is `""` |
| ClauseExamples.FirstSpace | clause.go:141-148 | finds the first space of a string, or reports that there is none |
| ClauseExamples.ParseLimitCount | clause.go:147 | ` LIMIT n` is read back as (n, 0) |
| ClauseExamples.ParseLimitCountOffset | clause.go:142-147 | ` LIMIT n OFFSET m` is read back as (n, m) |
| ClauseExamples.LimitTextRoundTrip | clause.go:141-148 | the LIMIT fragment carries the row count, and carries the offset exactly when it is positive |
| ClauseExamples.LimitExamples | table_filters_test.go:54-64 | Limit(25, 5) renders ` LIMIT 25 OFFSET 5`; Limit(25, 0) renders ` LIMIT 25` |
| ClauseExamples.NewValueFilter | clause.go:26-44 | a filter on a new value takes the next placeholder number and appends the value |
| ClauseExamples.DefaultTemplateFilter | clause.go:27-29 | with an empty template the placeholder is the third word |
| ClauseExamples.PlaceholdersOneToFour | dialect.go:17-19 | parameters 1 to 4 are `$1` to `$4` |
| ClauseExamples.PrimitiveFilterExample | clause_test.go:11-22 | `cool > %s` bound to 42 renders `cool > $1` and records [42] |
| ClauseExamples.CustomTemplateExample | clause_test.go:24-35 | the template `EXTRACT(WEEK FROM %s)` renders `week > EXTRACT(WEEK FROM $1)` and records the time |
| ClauseExamples.F1Example | clause_test.go:55 | the first child renders `cool > $1` |
| ClauseExamples.F2Example | clause_test.go:63 | the second child renders `we LIKE UCASE($2)` after the first |
| ClauseExamples.F3Example | clause_test.go:74 | the third renders `time < $3` |
| ClauseExamples.F4Example | clause_test.go:75 | the fourth renders `name = $4` |
| ClauseExamples.TwoChildren | clause.go:60-76 | two children render as `(first op second)`, the second starting from the first's list |
| ClauseExamples.ThreeChildren | clause.go:60-76 | three children render as `(first op second op third)`, each starting from the list before it |
| ClauseExamples.OrTreeExample | clause_test.go:73-75 | the inner OR tree renders `(time < $3 OR name = $4)` |
| ClauseExamples.AndTreeChildren | clause_test.go:68-78 | the three children of the nested tree render in order, numbering $1 to $4 |
| ClauseExamples.NestedCompoundExample | clause_test.go:68-78 | the nested tree renders `(cool > $1 AND we LIKE UCASE($2) AND (time < $3 OR name = $4))` and records the four values in that order |
| Columns.Column.constructor | column.go:20-25 | a new column has the given kind and no receiver |
| Columns.Column.SetReceiver | column.go:15-17 | the receiver becomes the argument, whatever it was before, so a second identical call changes nothing; the kind is a constant |
| TypeAdaptors.NullTypeMatchesElementKind | type_adaptors.go:11-28 | `nullType` gives each of String, Int64, Int32, Float64, Bool and Struct the one adapter that writes that kind, and no adapter to any other kind |
| TypeAdaptors.NullType | type_adaptors.go:11-28 | `nullType`; `NullTypeMatchesElementKind` states its table and that every other kind has no adapter |
| TypeAdaptors.NullAdapter.constructor | type_adaptors.go:58-66 | an adapter keeps the caller's field and starts invalid |
| TypeAdaptors.NullAdapter.Scan | type_adaptors.go:42-52 | a failed delegate scan returns its error and changes nothing; a successful one copies the value into the caller's field and the validity flag into the adapter |
| Accumulators.Accumulator.constructor | accumulator.go:13-19 | a fresh receiver holding the caller-supplied initial value (standing for T's zero value), the map the caller's function gives for it, no results |
| Accumulators.Accumulator.Acc | accumulator.go:30-32 | appends a copy of the receiver's value and keeps the earlier results |
| Accumulators.Accumulator.GetColumnReceiverMap | accumulator.go:34-36 | returns the stored map |
| Accumulators.Accumulator.GetResults | accumulator.go:38-40 | returns the stored results |
| Queries.FirstFailure | query.go:45-50 | the index of the first failing row: every earlier row scans, and the row there fails |
| Queries.ScannedValues | query.go:45-52 | the values of a run of scanned rows, one per row, in order |
| Queries.Repeat | query.go:46 | k copies of the scan list |
| Queries.Closer.constructor | query.go:35 | a closer starts uncalled |
| Queries.Closer.Close | query.go:43 | counts one call |
| Queries.Rows.constructor | query.go:29-32 | a cursor starts before the first row |
| Queries.Rows.Next | query.go:30 | moves to the next row, false once every row has been visited |
| Queries.Rows.Scan | query.go:31 | scans the current row into the destination or reports its error |
| Queries.Driver.constructor | query.go:34-36 | a driver with fixed rows, closer and failure, and no requests yet |
| Queries.Driver.RunQuery | query.go:35 | records the request and answers with its rows, closer and failure |
| Queries.Query.constructor | query.go:8-14 | a query keeps its text, scan list, parameters and accumulator |
| Queries.Query.GetScanList | query.go:16-18 | returns the stored scan list |
| Queries.Query.GetQuery | query.go:20-22 | returns the stored text |
| Queries.Query.GetParams | query.go:24-26 | returns the stored parameters |
| Queries.Query.ScanNext | query.go:45-51 | one pass of the loop: no row stops it with no error; a failed scan stops it with that error and no `Acc`; a good scan is accumulated |
| Queries.Query.ScanRows | query.go:45-53 | scans from the cursor up to and including the first failing row, reports that row's error or none, and accumulates exactly the rows before it, in cursor order |
| Queries.Query.Run | query.go:38-54 | sends exactly the stored text and parameters. If the driver fails: an error, and nothing scanned, accumulated or closed. Otherwise the rows are scanned as `ScanRows` says and the closer is called exactly once |
| QueryExamples.SomeRowsFailAtTwo | query.go:45-50 | in the sample rows the first failure is at index 2, after two good rows |
| QueryExamples.ScanStopsAtFirstFailure | query.go:38-54 | the two rows before the failing one are accumulated, the row after it is never read, the error is reported, and the closer runs once |
| QueryExamples.FailedQueryClosesNothing | query.go:39-42 | a failing driver gives the query error, no results and no close |
| QueryExamples.AccumulatesResults | common_test.go:79-111 | `Acc` keeps the receiver's value at the time of the call, not a later one |
| QueryExamples.NullColumnScan | type_adaptors.go:42-52 | a NULL column leaves the zero value in the caller's field and marks the adapter invalid |
| Tables.ColumnKindsNames | table.go:118-123 | every field's tag names a column, and nothing else does |
| Tables.ColumnKindsLastWins | table.go:118-123 | when several fields carry the same tag, the last of them decides the column's kind |
| Tables.ColumnKinds | table.go:118-123 | the columns `NewTable` derives from the fields; `ColumnKindsNames` and `ColumnKindsLastWins` state which names and kinds they are |
| Tables.Statement | table.go:139-182 | the text and parameters of `Build`; `Tables.Table.Build` is proved to produce it, and `TableFacts.StatementParams` and the other `TableFacts` lemmas state its parameters and shapes |
| Tables.AcceptableCases | table.go:42 | a plain type is accepted only for its own kind; an adapter for the kind it writes and for any struct column |
| Tables.LoadAgreesWithSetColumnReceiver | table.go:34-97 | an entry `SetColumnReceiver` accepts loads without a problem and is bound, through the array wrapper when it is a slice |
| Tables.LoadReportsAndBinds | table.go:62-84 | an entry is reported exactly when it is not a pointer, names no column, or has the wrong type; a non-pointer of the right type is reported and still bound |
| Tables.ProblemsStep | table.go:62-84 | one more entry adds at most its own problem, and a later check replaces an earlier one |
| Tables.LoadedStep | table.go:62-84 | one more entry rebinds at most its own column |
| Tables.Table.constructor | table.go:110-123 | one fresh column per tag, with the field's kind and no receiver; an empty AND filter, an empty `,` ordering, no limit |
| Tables.Table.NewTable | table.go:99-126 | fails exactly when the model is not a pointer to a struct; otherwise a table as the constructor builds it |
| Tables.Table.SetColumnReceiver | table.go:34-55 | checks, in order, pointer, column and type; a failure changes nothing, a success binds the raw receiver to that column only, even for a slice |
| Tables.Table.LoadEntry | table.go:63-83 | one entry: the problem it leaves, a later check replacing an earlier one, and the binding it makes |
| Tables.Table.LoadReceiversFromAccumulator | table.go:57-97 | every acceptable entry is bound; the call fails once, with every bad column's problem, exactly when there is one, after the good entries are bound |
| Tables.Table.AssertFilterClauseValid | table_filters.go:14-34 | fails for an absent column, or a value whose type neither has the column's kind nor is its nullable adapter; otherwise passes |
| Tables.Table.AssertColumnExists | table_filters.go:36-40 | fails exactly when the column is absent |
| Tables.Table.ColumnEquals | table_filters.go:42-48 | after validation, appends exactly one filter `column = %s` bound to the value; on failure nothing changes |
| Tables.Table.ColumnNull | table_filters.go:50-56 | for an existing column, appends the filter `column IS NULL` with no value; otherwise nothing changes |
| Tables.Table.BuildFilter | table_filters.go:58-60 | the text and list are those of rendering the filter on the given list |
| Tables.Table.AddOrderByClause | table_filters.go:62-66 | appends one ascending ordering on the column, which is not checked |
| Tables.Table.Limit | table_filters.go:68-72 | replaces any earlier limit |
| Tables.Table.CollectKeys | table.go:149-152 | the column names, each once, in some order |
| Tables.Table.SelectBound | table.go:156-163 | keeps the names that have a receiver, in sorted order, with the scan list holding each one's receiver |
| Tables.Table.Build | table.go:139-182 | without changing the table: selects exactly the columns with a receiver, strictly sorted, pairs the scan list with them, and gives the text and parameters of `Statement` |
| TableFacts.StatementParams | table.go:142-178 | the parameters are the filter's values, then the ordering's, each once, in first-use order |
| TableFacts.StatementWithoutClauses | table.go:143-176 | with no filter and no ordering the text is `SELECT names FROM table` plus the limit, with no parameter |
| TableFacts.UnboundFilterStatement | table.go:145-147 | a filter that binds nothing appears after ` WHERE ` |
| TableFacts.EqualsFilterText | table_filters.go:42-48 | a table's first equality filter renders `column = $1` and binds the value |
| TableFacts.EqualsFilterStatement | table.go:143-176 | one equality filter gives ` WHERE column = $1` with the value as the only parameter |
| TableFacts.OrderByStatement | table.go:170-176 | one ordering follows the table name directly, as `$1 ASC`, with no ORDER BY keyword and the column name as the parameter |
| TableExamples.ExampleColumnsFront | common_test.go:11-19 | the first four fields of the test model give their columns |
| TableExamples.ExampleColumns | common_test.go:11-19 | the test model gives seven columns with the fields' kinds |
| TableExamples.ExampleReceiverMapLoads | table_test.go:131-138 | the test accumulator's map loads without a problem, its slice through the array wrapper |
| TableExamples.UnknownColumnProblem | table_test.go:152-161 | an unknown column is reported as not included |
| TableExamples.NotPointerProblem | table_test.go:162-171 | a non-pointer receiver is reported |
| TableExamples.WrongTypeProblem | table_test.go:172-181 | a receiver of the wrong type is reported as an invalid type |
| TableExamples.SetColumnReceiverRejections | table_test.go:51-82 | the three bad receivers of the tests are rejected with their reasons |
| TableExamples.ExampleTable | common_test.go:11-19 | a fresh table over the test model, with no receivers and no clauses |
| TableExamples.NewTableRejections | table_test.go:18-29 | a pointer to a string and a struct that is not a pointer are both refused |
| TableExamples.ExampleAccumulator | common_test.go:58-73 | an accumulator with the test map and no results |
| TableExamples.BuildTwoBound | table.go:139-182 | with two bound columns, `Build` selects them in sorted order with their receivers |
| TableExamples.TwoBoundNames | table_test.go:99-124 | the bound columns of the two test tables, and their order |
| TableExamples.JoinedNames | table.go:176 | the selected names joined by `, ` |
| TableExamples.SimpleSelectText | table_test.go:99 | the simple select's statement is `SELECT cool, created_time FROM exampleTable` |
| TableExamples.ExampleReceiversAccepted | table_test.go:104-124 | the receivers of the test scenarios pass the checks |
| TableExamples.BindTwo | table.go:34-55 | two accepted bindings change only those two columns |
| TableExamples.NameAndCreatedTable | table_test.go:103-105 | the test table with `cool` and `created_time` bound |
| TableExamples.SimpleSelect | table_test.go:94-111 | the simple select's text, and the scan list of `Name` and then `Created` |
| TableExamples.CoolIsNullText | table_filters_test.go:41-52 | `ColumnNull("cool")` renders `cool IS NULL` with no parameter |
| TableExamples.NullFilterSelectText | table_test.go:119 | the filtered select's statement is `SELECT cool, loves FROM exampleTable WHERE cool IS NULL` |
| TableExamples.NameAndLovesTable | table_test.go:122-124 | the test table with `cool` and `loves` bound |
| TableExamples.CoolIsNullTable | table_test.go:122-125 | that table with the IS NULL filter |
| TableExamples.NullFilterSelect | table_test.go:114-129 | the filtered select's text, with the slice receiver bound as it is |
| TableExamples.CoolEqualsText | table_filters_test.go:20-26 | `ColumnEquals("cool", "don't care")` renders `cool = $1` |
| TableExamples.EqualsFilter | table_filters_test.go:10-39 | through the table, the equality filter builds `cool = $1` and binds the string |
| TableExamples.IsNullFilter | table_filters_test.go:41-52 | through the table, the null filter builds `cool IS NULL` and binds nothing |
| TableExamples.BuildNoneBound | table.go:156-163 | a table without receivers selects no column |
| TableExamples.LimitSelectText | table_filters_test.go:54-64 | the statement with Limit(25, 5) ends in ` LIMIT 25 OFFSET 5` and has no parameter |
| TableExamples.LimitSelect | table_filters_test.go:54-64 | the same, through the table |
| TableExamples.TwoNamesSorted | table.go:154 | two names given in order come out in order |

## Left out

- Reflection is not modelled. A model struct is a sequence of fields, each with a kind and
  its tags. A receiver is a descriptor: whether it is a pointer, and the type it points to.
- `pq.Array` is a call into another package. It is the opaque `ArrayWrapped` constructor.
- `database/sql` is not modelled. The delegate scan of an adapter is a given outcome, a
  value with its validity or an error. The adapters' `Value()` methods only delegate and
  are left out.
- The real driver and `context.Context` are not modelled. The driver is a given failure or
  a fixed sequence of row outcomes, and the closer is a call counter.
- Panic texts and `fmt`'s printing of maps become `Fatal` values, and so does the
  newline-separated list of bad columns. The order of that list follows Go's random map
  order, so it is a map from column to problem. `Run`'s joined error messages are the
  `RunError` variants.
- Go's `interface{}` equality is modelled as datatype equality. Go panics when it compares
  uncomparable values such as slices; that panic is not modelled.
- Floating-point values are opaque data; nothing computes with them.
- A nil parameter handed to `ColumnEquals` is not modelled: a bound value always has a
  type. A nil child inside a compound clause is not modelled either.
- Compound clauses are values. Go shares a `*CompoundClause` when it is nested in another
  tree, so a later `AddClause` on it shows through that tree; the model does not capture it.
- The builders return an `Outcome` instead of the same `*Table`, so chaining is written
  as a sequence of calls.
- The example statements are stated as concatenations of their words, e.g.
  `"SELECT " + "cool, created_time" + " FROM " + "exampleTable"`.
- Text.Sprintf1: only templates whose one `%` is a single `%s` verb (or that have no `%`
  at all) are formatted as Go's `fmt` does. Any other `%` is kept as it stands, while
  `fmt` would interpret it: `%%`, a second `%s` (Go prints `%!s(MISSING)`), another verb,
  or a LIKE wildcard such as `'%'` in a custom filter template. So filters built from
  such templates render differently in the model. The builders of `table_filters.go` and
  the templates of the tests contain no other `%`.
- The order-by template `"%s %s"` is written out as placeholder, space, direction.
- Accumulators.Accumulator.constructor: the receiver starts with the caller's `zero`
  argument; Go's `new(T)` gives T's zero value, which the model cannot compute for an
  arbitrary T.
- The map iteration in `Build` is nondeterministic. `CollectKeys` promises only that it
  returns every name once; the sorting that follows makes the result unique.
- `Query` and `Accumulator` are generic, but `Build` and some callers use them without a
  type argument. `Build` is modelled as generic over the result type.
- The six `NullX` adapters differ only in the element type and are one generic class.
  `exampleResultAccumulator`, the test twin of the generic accumulator, is covered by the
  generic one.
- Queries.Rows.Scan: a scan before the first `Next` returns an error text of the model's
  own. `Run` never makes that call.
