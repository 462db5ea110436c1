# genji SELECT compilation, modelled in Dafny

This project models how genji turns a parsed SELECT statement into a
stream plan (a pipeline of operators). It also models the two path
operators `paths.Set` and `paths.Unset`. Everything is a pure function
over immutable datatypes:

- **SELECT core** (`SelectCore`). One `SELECT … FROM … WHERE … GROUP BY …`
  becomes an optional `SeqScan`, then an optional `Filter`, then the
  aggregation stages, then `Project`. DISTINCT wraps the whole result in a
  single-input `Union`. Under GROUP BY, each projection must be an
  aggregator or the group key itself. A key projection is rewritten to read
  one field named after the key's text form. With no FROM, no projection
  may contain a path or `*`. The statement is read-only unless a projection
  contains `NEXT VALUE FOR`.
- **Modifiers** (`SelectModifiers`). ORDER BY appends `Sort` or
  `SortReverse`. OFFSET then LIMIT append `Skip` and `Take`. Each count is
  evaluated once, and it must be a number.
- **Compound statements** (`Compound`). `UNION ALL` and `UNION` chains are
  folded left to right. A run of one operator becomes one flat `Concat` or
  `Union` node. An operator change closes the run, and the closed node
  becomes the first input of the next node.
- **Whole statement** (`Query`). Every core is compiled, then the
  compound fold runs, then the modifiers. The first error wins.
- **Path operators** (`Paths`). Set writes a value at a path inside each
  document. Unset removes a top-level field.

`SelectCases` and `PathsCases` state the plans and documents that the
repository's tests expect, as lemmas about the model.

`expr.Equal` is Dafny equality on the `Expr` datatype. `expr.Walk` is the
recursive predicate `Exprs.Contains`. The text form of an expression
(`String()`) and the evaluation of OFFSET/LIMIT expressions are function
parameters (`render`, `eval`). `Render.ExprString` is one concrete text
form, used by the test-case lemmas.

## Model

| member | source | states |
|---|---|---|
| SelectCore.CompileCore | internal/query/statement/select.go:21-141 | Compilation succeeds iff the grouping is valid and the core has a table or no output projection mentions a path or `*`. An invalid grouping reports the first offending projection; otherwise the only error is "no tables". The result is read-only iff no output contains NEXT VALUE FOR. DISTINCT yields one Union stage; otherwise the last stage is Project over the outputs, and the first is a scan of the table when there is one. A core with no table has no scan stage. |
| SelectCore.ResolveGroupBy | internal/query/statement/select.go:35-70 | Under GROUP BY, the walk succeeds iff every projection is named and is an aggregator or equals the key. On failure, the error carries the first projection that is neither. On success, aggregators stay in place and each key projection keeps its name and reads the single field named after the rendered key. It collects exactly the projected aggregators, in order. |
| SelectCore.Aggregators | internal/query/statement/select.go:77-90 | Every collected expression is an aggregator, and there is at most one per projection. The list is empty iff no projection is a named aggregator. |
| SelectCore.AggregatorCollected | internal/query/statement/select.go:79-90 | Every named aggregator projection has its aggregator in the collected list. |
| SelectCore.AggregatorsAppend | internal/query/statement/select.go:79-90 | Collecting aggregators distributes over concatenation of projection lists, so projection order is kept. |
| SelectCore.Group | internal/query/statement/select.go:34-96 | The grouping step succeeds iff the grouping is valid. Its projections are exactly the outputs: rewritten under GROUP BY, untouched without it. Its aggregators are those of the projection list, in both branches. |
| SelectCore.EmptyScanNotRead | internal/query/statement/select.go:26-28 | A stream that scans the empty table name never reads back as a compiled core, since a scan is compiled only for a named table. |
| SelectCore.CompileCoreReadsBack | internal/query/statement/select.go:26-31 | Decompiling any compiled core recovers its table, its WHERE, its grouping (keyed, global, or none), its outputs and its DISTINCT flag. So the stages come exactly in the order scan, filter, sort+group or global group, project. Each appears exactly when its clause is present. A scan of the empty table name is not read as a scan. |
| SelectCore.ReadParts | internal/query/statement/select.go:72-117 | The three stage groups the compiler concatenates read back as the table, the filter, the grouping and the projection that produced them. |
| SelectCore.CompileCoreDistinct | internal/query/statement/select.go:133-135 | DISTINCT changes nothing but wrapping the stream as the single input of a Union. The errors and the read-only flag are the same. |
| SelectCore.WhereNotConsulted | internal/query/statement/select.go:30-32 | Changing the WHERE clause changes neither whether compilation succeeds nor the read-only flag. |
| SelectCore.UngroupedShape | internal/query/statement/select.go:74-117 | Without GROUP BY and aggregators, a valid core compiles to exactly [SeqScan?, Filter?, Project(projections)]. |
| SelectModifiers.EvalCount | internal/query/statement/select.go:163-178 | A count clause yields an integer iff its expression evaluates to a number. An evaluation error is passed through. A non-number is reported with the clause and the type it got. |
| SelectModifiers.ApplyModifiers | internal/query/statement/select.go:152-203 | The modifiers succeed iff OFFSET and LIMIT are absent or numeric, and the OFFSET error wins over the LIMIT error. The compound stream is kept as a prefix, with one stage per present clause. The read-only flag is the compound's. |
| SelectModifiers.ModifiersReadBack | internal/query/statement/select.go:155-197 | Round trip: reading the appended stages back off the result gives exactly the compound stream, the requested ordering (ascending or descending), the offset and the limit. |
| Compound.Fold | internal/sql/parser/select_test.go:248-300 | The fold state always has an open run. The pending operator is the last operator read, and there is no pending operator only for a lone core. |
| Compound.Combine | internal/sql/parser/select_test.go:135-313 | The compound is read-only iff every core is. A lone core is returned unchanged. A chain becomes a single Union or Concat stage. |
| Compound.LastRunStart | internal/sql/parser/select_test.go:256-300 | It finds the start of the final run of equal operators. |
| Compound.FoldInvariant | internal/sql/parser/select_test.go:248-300 | After any non-empty chain, the open run holds the grouping of everything before the last run, followed by that run's cores, under the last operator. |
| Compound.CombineIsNest | internal/sql/parser/select_test.go:248-300 | The left fold builds the same tree as the reference grouping. That grouping makes the last run of equal operators one node whose first input is the grouping of everything before it. |
| Compound.SameOperatorFlattens | internal/sql/parser/select_test.go:248-255 | A chain with one operator is one flat node over every core, in order. |
| Compound.SwitchClosesRun | internal/sql/parser/select_test.go:256-265 | An operator change nests the chain so far as the first input of a new two-input node. |
| Compound.SameOperatorExtendsRun | internal/sql/parser/select_test.go:277-287 | Repeating the operator adds one input to the open node. |
| Query.CompileBranches | internal/sql/parser/select_test.go:135-147 | The cores after the first compile iff each does. The result keeps each operator and each compiled core, position by position. |
| Query.FirstFailingBranch | internal/sql/parser/select_test.go:135-147 | When the later cores fail to compile, the error is that of the first core that fails; every core before it compiles. |
| Query.CompileSelect | internal/sql/parser/select_test.go:316-326 | A statement compiles iff every core compiles and OFFSET and LIMIT are numbers. The first error wins, in this order: the first core, the first failing later core, OFFSET, then LIMIT. |
| Query.ModifiersFollowCompound | internal/sql/parser/select_test.go:163-188 | The modifiers apply to the whole compound: reading them off a compiled statement leaves the combined cores and the requested modifiers. |
| Query.ReadOnlyIsConjunction | internal/sql/parser/select_test.go:301-313 | A compiled statement is read-only iff every one of its cores is. |
| SelectCases.NoTable | internal/sql/parser/select_test.go:25-27 | `SELECT 1` is a lone Project and is read-only. |
| SelectCases.NoTableWithPath | internal/query/statement/select.go:98-116 | `SELECT a` with no FROM fails with "no tables specified". |
| SelectCases.WithCond | internal/sql/parser/select_test.go:68-72 | `SELECT * FROM test WHERE age = 10` is SeqScan, Filter, Project(*). |
| SelectCases.WithGroupBy | internal/sql/parser/select_test.go:74-80 | GROUP BY a.b.c: SeqScan, Filter, Sort, GroupAggregate, then Project of a one-segment path named "a.b.c". |
| SelectCases.GroupByRejectsOtherField | internal/query/statement/select.go:63-70 | A projection that is neither the key nor an aggregator is rejected by name. |
| SelectCases.WithAggregation | internal/sql/parser/select_test.go:126-130 | `SELECT COUNT(*) FROM test` is SeqScan, GroupAggregate(nil, COUNT(*)), Project. |
| SelectCases.WithNextValueFor | internal/sql/parser/select_test.go:131-134 | `SELECT NEXT VALUE FOR foo FROM test` is not read-only. |
| SelectCases.WithOrderByDesc | internal/sql/parser/select_test.go:96-102 | ORDER BY … DESC appends SortReverse after Project. |
| SelectCases.WithLimitThenOffset | internal/sql/parser/select_test.go:117-124 | LIMIT 10 OFFSET 20 appends Skip(20) and then Take(10). |
| SelectCases.LimitMustBeNumber | internal/query/statement/select.go:181-189 | A text LIMIT fails, naming the text type. |
| SelectCases.WithUnionAllAndModifiers | internal/sql/parser/select_test.go:184-190 | UNION ALL with ORDER BY, LIMIT and OFFSET is Concat, Sort, Skip, Take. |
| SelectCases.WithUnionAndModifiers | internal/sql/parser/select_test.go:241-247 | UNION with the same modifiers is Union, Sort, Skip, Take. |
| SelectCases.MultipleCompoundOps1 | internal/sql/parser/select_test.go:248-255 | a ALL b ALL c is one Concat of three. |
| SelectCases.MultipleCompoundOps2 | internal/sql/parser/select_test.go:256-265 | a ALL b UNION c is Union(Concat(a, b), c). |
| SelectCases.MultipleCompoundOps2b | internal/sql/parser/select_test.go:266-276 | a ALL b ALL c UNION d is Union(Concat(a, b, c), d). |
| SelectCases.MultipleCompoundOps3 | internal/sql/parser/select_test.go:277-287 | a ALL b UNION c UNION d is Union(Concat(a, b), c, d). |
| SelectCases.MultipleCompoundOps4 | internal/sql/parser/select_test.go:288-300 | a ALL b UNION c ALL d is Concat(Union(Concat(a, b), c), d). |
| SelectCases.MultipleCompoundOps4Compiles | internal/sql/parser/select_test.go:288-300 | The same statement, compiled from its four cores. |
| SelectCases.MultipleCompoundOpsAndNextValueFor4 | internal/sql/parser/select_test.go:301-313 | The chain with `SELECT NEXT VALUE FOR foo FROM d` as its last core, compiled from the four parsed cores, gives the same tree and is not read-only. |
| Paths.SetAt | internal/stream/paths_test.go:17-39 | When the write succeeds (see SetExisting and SetNewLastField), at the first segment of a non-empty path: the value keeps its kind, and an index past the end finds nothing. An array keeps its length and every other element. A document keeps its field names, their order and every other field's value. It gains one field exactly when the named field was absent, and otherwise keeps its length. |
| Paths.SetExisting | internal/stream/paths_test.go:32-38 | A write at any path that already holds a value succeeds: the existing field or element is replaced. |
| Paths.SetNewLastField | internal/stream/paths_test.go:25-31 | A write of a field into any document the path reaches succeeds, creating the field when it is absent. |
| Paths.SetPastEndDeep | internal/stream/paths_test.go:32-38 | At any depth, an index past the end of the array the path has reached makes the write Missing. |
| Paths.SetFrame | internal/stream/paths_test.go:24-38 | A write at one path leaves every other path alone: a path that leaves the written one at some segment reads the same before and after. |
| Paths.SetThenGet | internal/stream/paths_test.go:24-38 | After a successful write, reading the same path gives the written value. |
| Paths.SetIdempotent | internal/stream/paths_test.go:24-38 | Writing the same value twice at the same path is the same as writing it once. |
| Paths.SetOne | internal/stream/paths_test.go:41-58 | Per document: an evaluation error aborts, a successful write emits the new document, a missing target drops the document, and a kind mismatch is an error. |
| Paths.SetEach | internal/stream/paths_test.go:32-38 | Set over a stream succeeds iff it succeeds on every document, and it never emits more documents than it reads. A single document yields its own error, or its written document, or nothing when the target is missing. With SetEachAppend this fixes the output of any stream. |
| Paths.SetEachAppend | internal/stream/paths_test.go:41-52 | Set over two streams in sequence equals Set over each in turn, with the outputs concatenated in order. |
| Paths.Unset | internal/stream/paths_test.go:66-79 | Unset leaves a document without the field unchanged, and removes exactly one field otherwise. Every other name finds what it found before. The remaining fields keep their order. With unique names, the field is gone and names stay unique. |
| Paths.UnsetIdempotent | internal/stream/paths_test.go:66-79 | For documents with unique names, Unset twice is Unset once. |
| Paths.UnsetEach | internal/stream/paths_test.go:81-97 | Unset over a stream emits one document per input, in order. |
| PathsCases.SetIntoEmptyDocInArray | internal/stream/paths_test.go:25-31 | Setting a[0].b to 10 on {"a": [{}]} gives {"a": [{"b": 10}]}. |
| PathsCases.SetPastEndDrops | internal/stream/paths_test.go:32-38 | Setting a[2] over {"a": [1]} and {"a": [1, 2, 3]} emits only {"a": [1, 2, 10]}. |
| PathsCases.UnsetRemovesField | internal/stream/paths_test.go:73-78 | Unsetting a on {"a": 10, "b": 20} gives {"b": 20}. |
| PathsCases.SetString | internal/stream/paths_test.go:61-63 | Set on a.b with 1 prints as `paths.Set(a.b, 1)`. |
| PathsCases.UnsetString | internal/stream/paths_test.go:99-101 | Unset of a prints as `paths.Unset(a)`. |

## Left out

- Parsing SQL text is not modelled. The tests that must fail for clause order (OFFSET before LIMIT, and modifiers before UNION, select_test.go:125 and 151-162, 208-219) are excluded by the shape of `Query.SelectQuery`: the modifiers exist only once, after the compound.
- Running the streams is not modelled, except Set and Unset as per-document functions. Scans, filters, sorting, grouping and projection are plan stages only.
- The expression package is not part of this model. `expr.Walk` is modelled as a descent into every child. `String()` and `Eval` are parameters.
- Floating-point values are left out. The only numbers are integers, so `CastAsInteger` is the identity.
- SelectModifiers.EvalCount: does not model the int64 range of the count, because integers are unbounded here.
- The document field buffer used by Set is not part of this model. Two choices are fixed by the tests: an existing array element is replaced in place (paths_test.go:32-38), and an index past the end drops the document (paths_test.go:32-38). The only field write in the tests goes into an empty document (paths_test.go:25-31). Four choices are this model's own: an existing field is replaced in place, a missing last field is appended at the end, a missing intermediate field drops the document, and stepping into a value of the wrong kind is an error.
- Paths.SetAt: an index past the end of an array drops the document rather than extending the array, as paths_test.go:32-38 requires.
- Paths.SetEach: a failing document yields only the error. The operator has already passed the earlier documents downstream by then (paths_test.go:47-52). The model returns no partial output.
- Compound.Combine: `A UNION ALL B UNION C UNION ALL D` groups strictly from the left, as Concat(Union(Concat(A, B), C), D) (select_test.go:288-300). It is not a Union of two Concats.
- The text form of expressions (`Render`) does not escape quoted identifiers or strings.
- The command-line application (cmd/genji/commands/app.go) and the SELECT parsing benchmark (select_test.go:330-334) are outside the compiler and are not modelled.
- The GROUP BY rewrite mutates the statement's projection list in place. The model returns the rewritten list instead, which is the same as seen from the compiled plan.
