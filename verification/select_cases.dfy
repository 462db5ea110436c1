/**
 * The compiled shapes the parser's SELECT tests expect, stated over the
 * statements the parser hands to the compiler.
 */
module SelectCases {
  import opened Results
  import opened Values
  import opened Exprs
  import opened Errors
  import opened Streams
  import opened SelectCore
  import opened SelectModifiers
  import opened Compound
  import opened Query
  import Render

  /** A path of plain field names, `a.b.c`. */
  function FieldPath(names: seq<string>): Path {
    seq(|names|, i requires 0 <= i < |names| => Key(names[i]))
  }

  function Col(names: seq<string>): Expr {
    PathRef(FieldPath(names))
  }

  /** `age = 10` */
  const AgeIsTen: Expr := Binary("=", Col(["age"]), Lit(Int(10)))

  /** Constant expressions evaluate to their literal value. */
  function ConstEval(e: Expr): Result<Value, Error> {
    if e.Lit? then Ok(e.value) else Err(EvalFailed("not a constant"))
  }

  /** `SELECT * FROM t [WHERE w]` */
  function StarFrom(t: string, where: Option<Expr>): SelectCoreStmt {
    SelectCoreStmt(t, false, where, None, [Wildcard])
  }

  function Plain(c: SelectCoreStmt): SelectQuery {
    SelectQuery(c, [], None, Unspecified, None, None)
  }

  function Compile(q: SelectQuery): Result<StreamStmt, Error> {
    CompileSelect(q, Render.ExprString, ConstEval)
  }

  /** `[SeqScan(t), Project(*)]` */
  function ScanAll(t: string): Stream {
    [SeqScan(t), Project([Wildcard])]
  }

  /** `SELECT * FROM t [WHERE w]` compiles to a scan, the filter and the projection of `*`. */
  lemma StarCompiles(t: string, where: Option<Expr>)
    requires t != ""
    ensures CompileCore(StarFrom(t, where), Render.ExprString) ==
            Ok(StreamStmt(if where.Some? then [SeqScan(t), Filter(where.value), Project([Wildcard])] else ScanAll(t), true))
  {
    var c := StarFrom(t, where);
    assert Group(c, Render.ExprString) == Ok(Grouped([Wildcard], []));
    assert !Contains(Wildcard, NextValueForKind);
    assert !AnyContains([Wildcard], NextValueForKind);
    assert AggregationStages(None, []) == [];
    var s := SourceStages(t, where) + AggregationStages(None, []) + [Project([Wildcard])];
    if where.Some? {
      assert SourceStages(t, where) == [SeqScan(t), Filter(where.value)];
      assert s == [SeqScan(t), Filter(where.value), Project([Wildcard])];
    } else {
      assert SourceStages(t, where) == [SeqScan(t)];
      assert s == ScanAll(t);
    }
    assert CompileCore(c, Render.ExprString) == Ok(StreamStmt(s, true));
  }

  /** A single core with no modifiers compiles to the core alone. */
  lemma PlainCompiles(c: SelectCoreStmt)
    requires CompileCore(c, Render.ExprString).Ok?
    ensures Compile(Plain(c)) == CompileCore(c, Render.ExprString)
  {
    var st := CompileCore(c, Render.ExprString).value;
    assert CompileBranches([], Render.ExprString) == Ok([]);
    assert Combine(st, []) == st;
    assert AppendOrder(st.stream, None, Unspecified) == st.stream;
  }

  /** `UNION [ALL] SELECT * FROM t` */
  function StarBranch(op: SetOp, t: string): CoreBranch {
    CoreBranch(op, StarFrom(t, None))
  }

  function ScanBranch(op: SetOp, t: string): Branch {
    Branch(op, StreamStmt(ScanAll(t), true))
  }

  /** Compiling the cores after the first, one core at a time. */
  lemma BranchesCons(b: CoreBranch, tail: seq<CoreBranch>, st: StreamStmt, bs: seq<Branch>)
    requires CompileCore(b.core, Render.ExprString) == Ok(st)
    requires CompileBranches(tail, Render.ExprString) == Ok(bs)
    ensures CompileBranches([b] + tail, Render.ExprString) == Ok([Branch(b.op, st)] + bs)
  {
    assert ([b] + tail)[0] == b;
    assert ([b] + tail)[1..] == tail;
  }

  /** The chain `UNION [ALL] SELECT * FROM t` ... compiles to its scans. */
  lemma StarBranchCompiles(op: SetOp, t: string, tail: seq<CoreBranch>, bs: seq<Branch>)
    requires t != ""
    requires CompileBranches(tail, Render.ExprString) == Ok(bs)
    ensures CompileBranches([StarBranch(op, t)] + tail, Render.ExprString) == Ok([ScanBranch(op, t)] + bs)
  {
    StarCompiles(t, None);
    BranchesCons(StarBranch(op, t), tail, StreamStmt(ScanAll(t), true), bs);
  }

  /** Three cores after the first compile to their three compiled streams, operators kept. */
  lemma ThreeBranchesCompile(b1: CoreBranch, b2: CoreBranch, b3: CoreBranch, s1: StreamStmt, s2: StreamStmt, s3: StreamStmt)
    requires CompileCore(b1.core, Render.ExprString) == Ok(s1)
    requires CompileCore(b2.core, Render.ExprString) == Ok(s2)
    requires CompileCore(b3.core, Render.ExprString) == Ok(s3)
    ensures CompileBranches([b1, b2, b3], Render.ExprString) == Ok([Branch(b1.op, s1), Branch(b2.op, s2), Branch(b3.op, s3)])
  {
    var t3 := [Branch(b3.op, s3)];
    var t2 := [Branch(b2.op, s2)] + t3;
    assert CompileBranches([], Render.ExprString) == Ok([]);
    assert [b3] + [] == [b3] && [Branch(b3.op, s3)] + [] == t3;
    BranchesCons(b3, [], s3, []);
    BranchesCons(b2, [b3], s2, t3);
    assert [b2] + [b3] == [b2, b3];
    BranchesCons(b1, [b2, b3], s1, t2);
    assert [b1] + [b2, b3] == [b1, b2, b3];
    assert [Branch(b1.op, s1)] + t2 == [Branch(b1.op, s1), Branch(b2.op, s2), Branch(b3.op, s3)];
  }

  /** Once every core compiles, the statement is the modifiers over the fold. */
  lemma QueryCompiles(q: SelectQuery, first: StreamStmt, rest: seq<Branch>)
    requires CompileCore(q.first, Render.ExprString) == Ok(first)
    requires CompileBranches(q.rest, Render.ExprString) == Ok(rest)
    ensures Compile(q) == ApplyModifiers(SelectStmt(Combine(first, rest), q.orderBy, q.direction, q.offset, q.limit), ConstEval)
  {
  }

  /** The modifiers, step by step: order, then offset, then limit. */
  lemma ModifierSteps(stmt: SelectStmt, skipped: Stream, taken: Stream)
    requires AppendCount(AppendOrder(stmt.compound.stream, stmt.orderBy, stmt.direction), stmt.offset, OffsetClause, ConstEval) == Ok(skipped)
    requires AppendCount(skipped, stmt.limit, LimitClause, ConstEval) == Ok(taken)
    ensures ApplyModifiers(stmt, ConstEval) == Ok(StreamStmt(taken, stmt.compound.readOnly))
  {
  }

  /** SELECT 1 */
  lemma NoTable()
    ensures Compile(Plain(SelectCoreStmt("", false, None, None, [Named("1", Lit(Int(1)))]))) ==
            Ok(StreamStmt([Project([Named("1", Lit(Int(1)))])], true))
  {
    var one := Named("1", Lit(Int(1)));
    var c := SelectCoreStmt("", false, None, None, [one]);
    assert !Contains(one, PathKind) && !Contains(one, WildcardKind) && !Contains(one, NextValueForKind);
    assert !ReferencesFields([one]);
    assert !AnyContains([one], NextValueForKind);
    assert Aggregators([one]) == [];
    assert Group(c, Render.ExprString) == Ok(Grouped([one], []));
    var s := SourceStages("", None) + AggregationStages(None, []) + [Project([one])];
    assert s == [Project([one])];
    assert CompileCore(c, Render.ExprString) == Ok(StreamStmt(s, true));
    PlainCompiles(c);
  }

  /** SELECT a, with no FROM, fails. */
  lemma NoTableWithPath()
    ensures Compile(Plain(SelectCoreStmt("", false, None, None, [Named("a", Col(["a"]))]))) ==
            Err(NoTablesSpecified)
  {
    var c := SelectCoreStmt("", false, None, None, [Named("a", Col(["a"]))]);
    assert Contains(c.projections[0], PathKind);
  }

  /** SELECT * FROM test WHERE age = 10 */
  lemma WithCond()
    ensures Compile(Plain(StarFrom("test", Some(AgeIsTen)))) ==
            Ok(StreamStmt([SeqScan("test"), Filter(AgeIsTen), Project([Wildcard])], true))
  {
    StarCompiles("test", Some(AgeIsTen));
    PlainCompiles(StarFrom("test", Some(AgeIsTen)));
  }

  /** `a.b.c` renders as the text the rewritten projection reads. */
  lemma RenderABC()
    ensures Render.ExprString(Col(["a", "b", "c"])) == "a.b.c"
  {
    var p := [Key("a"), Key("b"), Key("c")];
    assert Col(["a", "b", "c"]) == PathRef(p);
    assert p[..2] == [Key("a"), Key("b")];
    assert p[..2][..1] == [Key("a")];
    assert [Key("a")][..0] == [];
    assert Render.PathString([Key("a")]) == "a";
    assert Render.PathString([Key("a"), Key("b")]) == "a.b";
  }

  /** SELECT a.b.c FROM test WHERE age = 10 GROUP BY a.b.c */
  lemma WithGroupBy()
    ensures
      var abc := Col(["a", "b", "c"]);
      Compile(Plain(SelectCoreStmt("test", false, Some(AgeIsTen), Some(abc), [Named("a.b.c", abc)]))) ==
      Ok(StreamStmt([SeqScan("test"), Filter(AgeIsTen), Sort(abc), GroupAggregate(Some(abc), []),
                     Project([Named("a.b.c", PathRef([Key("a.b.c")]))])], true))
  {
    var abc := Col(["a", "b", "c"]);
    var c := SelectCoreStmt("test", false, Some(AgeIsTen), Some(abc), [Named("a.b.c", abc)]);
    RenderABC();
    var out := Named("a.b.c", PathRef([Key("a.b.c")]));
    assert Groupable(Named("a.b.c", abc), abc);
    assert Aggregators([Named("a.b.c", abc)]) == [];
    var g := ResolveGroupBy([Named("a.b.c", abc)], abc, Render.ExprString);
    assert g.Ok? && |g.value.projections| == 1;
    assert g.value.projections[0] == out;
    assert g.value.projections == [out];
    assert g == Ok(Grouped([out], []));
    assert !Contains(out, NextValueForKind);
    assert !AnyContains([out], NextValueForKind);
    var s := SourceStages("test", Some(AgeIsTen)) + AggregationStages(Some(abc), []) + [Project([out])];
    assert s == [SeqScan("test"), Filter(AgeIsTen), Sort(abc), GroupAggregate(Some(abc), []), Project([out])];
    assert CompileCore(c, Render.ExprString) == Ok(StreamStmt(s, true));
    PlainCompiles(c);
  }

  /** SELECT x FROM test GROUP BY y */
  lemma GroupByRejectsOtherField()
    ensures Compile(Plain(SelectCoreStmt("test", false, None, Some(Col(["y"])), [Named("x", Col(["x"]))]))) ==
            Err(NotInGroupBy(Named("x", Col(["x"]))))
  {
    assert Col(["x"]) != Col(["y"]) by {
      assert Col(["x"]).path[0] == Key("x");
      assert Col(["y"]).path[0] == Key("y");
    }
  }

  /** SELECT COUNT(*) FROM test */
  lemma WithAggregation()
    ensures
      var count := Aggregate("COUNT", true, []);
      Compile(Plain(SelectCoreStmt("test", false, None, None, [Named("COUNT(*)", count)]))) ==
      Ok(StreamStmt([SeqScan("test"), GroupAggregate(None, [count]), Project([Named("COUNT(*)", count)])], true))
  {
    var count := Aggregate("COUNT", true, []);
    var proj := Named("COUNT(*)", count);
    var c := SelectCoreStmt("test", false, None, None, [proj]);
    assert Aggregators([proj]) == [count];
    assert !Contains(proj, NextValueForKind);
    assert !AnyContains([proj], NextValueForKind);
    var s := SourceStages("test", None) + AggregationStages(None, [count]) + [Project([proj])];
    assert s == [SeqScan("test"), GroupAggregate(None, [count]), Project([proj])];
    assert CompileCore(c, Render.ExprString) == Ok(StreamStmt(s, true));
    PlainCompiles(c);
  }

  /** The projection `NEXT VALUE FOR foo`, named by its text. */
  const NextValueFoo: Expr := Named("NEXT VALUE FOR foo", NextValueFor("foo"))

  /** `SELECT NEXT VALUE FOR foo FROM t` */
  function NextValueFrom(t: string): SelectCoreStmt {
    SelectCoreStmt(t, false, None, None, [NextValueFoo])
  }

  /** A core projecting NEXT VALUE FOR scans its table and is not read-only. */
  lemma NextValueCompiles(t: string)
    requires t != ""
    ensures CompileCore(NextValueFrom(t), Render.ExprString) == Ok(StreamStmt([SeqScan(t), Project([NextValueFoo])], false))
  {
    var c := NextValueFrom(t);
    assert Contains(NextValueFoo, NextValueForKind);
    assert Aggregators([NextValueFoo]) == [];
    var s := SourceStages(t, None) + AggregationStages(None, []) + [Project([NextValueFoo])];
    assert s == [SeqScan(t), Project([NextValueFoo])];
    assert CompileCore(c, Render.ExprString) == Ok(StreamStmt(s, false));
  }

  /** SELECT NEXT VALUE FOR foo FROM test */
  lemma WithNextValueFor()
    ensures Compile(Plain(NextValueFrom("test"))) == Ok(StreamStmt([SeqScan("test"), Project([NextValueFoo])], false))
  {
    NextValueCompiles("test");
    PlainCompiles(NextValueFrom("test"));
  }

  /** SELECT * FROM test WHERE age = 10 ORDER BY a.b.c DESC */
  lemma WithOrderByDesc()
    ensures Compile(SelectQuery(StarFrom("test", Some(AgeIsTen)), [], Some(FieldPath(["a", "b", "c"])), Desc, None, None)) ==
            Ok(StreamStmt([SeqScan("test"), Filter(AgeIsTen), Project([Wildcard]), SortReverse(Col(["a", "b", "c"]))], true))
  {
    var st := StreamStmt([SeqScan("test"), Filter(AgeIsTen), Project([Wildcard])], true);
    StarCompiles("test", Some(AgeIsTen));
    assert CompileBranches([], Render.ExprString) == Ok([]);
    assert Combine(st, []) == st;
    QueryCompiles(SelectQuery(StarFrom("test", Some(AgeIsTen)), [], Some(FieldPath(["a", "b", "c"])), Desc, None, None), st, []);
    var stmt := SelectStmt(st, Some(FieldPath(["a", "b", "c"])), Desc, None, None);
    var sorted := st.stream + [SortReverse(Col(["a", "b", "c"]))];
    assert AppendOrder(st.stream, Some(FieldPath(["a", "b", "c"])), Desc) == sorted;
    ModifierSteps(stmt, sorted, sorted);
    assert sorted == [SeqScan("test"), Filter(AgeIsTen), Project([Wildcard]), SortReverse(Col(["a", "b", "c"]))];
  }

  /** SELECT * FROM test WHERE age = 10 LIMIT 10 OFFSET 20 */
  lemma WithLimitThenOffset()
    ensures Compile(SelectQuery(StarFrom("test", Some(AgeIsTen)), [], None, Unspecified, Some(Lit(Int(20))), Some(Lit(Int(10))))) ==
            Ok(StreamStmt([SeqScan("test"), Filter(AgeIsTen), Project([Wildcard]), Skip(20), Take(10)], true))
  {
    var st := StreamStmt([SeqScan("test"), Filter(AgeIsTen), Project([Wildcard])], true);
    StarCompiles("test", Some(AgeIsTen));
    assert CompileBranches([], Render.ExprString) == Ok([]);
    assert Combine(st, []) == st;
    QueryCompiles(SelectQuery(StarFrom("test", Some(AgeIsTen)), [], None, Unspecified, Some(Lit(Int(20))), Some(Lit(Int(10)))), st, []);
    var stmt := SelectStmt(st, None, Unspecified, Some(Lit(Int(20))), Some(Lit(Int(10))));
    assert AppendOrder(st.stream, None, Unspecified) == st.stream;
    assert AppendCount(st.stream, Some(Lit(Int(20))), OffsetClause, ConstEval) == Ok(st.stream + [Skip(20)]);
    assert AppendCount(st.stream + [Skip(20)], Some(Lit(Int(10))), LimitClause, ConstEval) == Ok(st.stream + [Skip(20)] + [Take(10)]);
    ModifierSteps(stmt, st.stream + [Skip(20)], st.stream + [Skip(20)] + [Take(10)]);
    assert st.stream + [Skip(20)] + [Take(10)] == [SeqScan("test"), Filter(AgeIsTen), Project([Wildcard]), Skip(20), Take(10)];
  }

  /** A non-numeric LIMIT is an error naming the type it got. */
  lemma LimitMustBeNumber()
    ensures Compile(SelectQuery(StarFrom("test", None), [], None, Unspecified, None, Some(Lit(Text("ten"))))) ==
            Err(LimitNotNumber(TextType))
  {
    StarCompiles("test", None);
    assert CompileBranches([], Render.ExprString) == Ok([]);
  }

  /** The stream part of the modifiers ORDER BY a LIMIT 10 OFFSET 20. */
  lemma SortSkipTake(st: StreamStmt)
    ensures ApplyModifiers(SelectStmt(st, Some(FieldPath(["a"])), Unspecified, Some(Lit(Int(20))), Some(Lit(Int(10)))), ConstEval) ==
            Ok(StreamStmt(st.stream + [Sort(Col(["a"])), Skip(20), Take(10)], st.readOnly))
  {
    var sorted := st.stream + [Sort(Col(["a"]))];
    assert AppendOrder(st.stream, Some(FieldPath(["a"])), Unspecified) == sorted;
    assert AppendCount(sorted, Some(Lit(Int(20))), OffsetClause, ConstEval) == Ok(sorted + [Skip(20)]);
    assert AppendCount(sorted + [Skip(20)], Some(Lit(Int(10))), LimitClause, ConstEval) == Ok(sorted + [Skip(20)] + [Take(10)]);
    ModifierSteps(SelectStmt(st, Some(FieldPath(["a"])), Unspecified, Some(Lit(Int(20))), Some(Lit(Int(10)))),
                  sorted + [Skip(20)], sorted + [Skip(20)] + [Take(10)]);
    assert sorted + [Skip(20)] + [Take(10)] == st.stream + [Sort(Col(["a"])), Skip(20), Take(10)];
  }

  /** test1 and test2 joined by one operator form a single node. */
  lemma TwoScans(op: SetOp)
    ensures Combine(StreamStmt(ScanAll("test1"), true), [ScanBranch(op, "test2")]) ==
            StreamStmt(Node(op, [ScanAll("test1"), ScanAll("test2")]), true)
  {
    var first := StreamStmt(ScanAll("test1"), true);
    var b := ScanBranch(op, "test2");
    SameOperatorFlattens(first, [b], op);
    assert Combine(first, [b]).readOnly;
    assert BranchStreams([b]) == [ScanAll("test2")];
    assert [first.stream] + BranchStreams([b]) == [ScanAll("test1"), ScanAll("test2")];
  }

  /** SELECT * FROM test1 {op} SELECT * FROM test2 ORDER BY a LIMIT 10 OFFSET 20 */
  lemma TwoWithModifiers(op: SetOp)
    ensures Compile(SelectQuery(StarFrom("test1", None), [StarBranch(op, "test2")],
                                Some(FieldPath(["a"])), Unspecified, Some(Lit(Int(20))), Some(Lit(Int(10))))) ==
            Ok(StreamStmt(Node(op, [ScanAll("test1"), ScanAll("test2")]) + [Sort(Col(["a"])), Skip(20), Take(10)], true))
  {
    var first := StreamStmt(ScanAll("test1"), true);
    var b := ScanBranch(op, "test2");
    StarCompiles("test1", None);
    assert CompileBranches([], Render.ExprString) == Ok([]);
    StarBranchCompiles(op, "test2", [], []);
    assert [StarBranch(op, "test2")] + [] == [StarBranch(op, "test2")];
    assert [b] + [] == [b];
    QueryCompiles(SelectQuery(StarFrom("test1", None), [StarBranch(op, "test2")],
                              Some(FieldPath(["a"])), Unspecified, Some(Lit(Int(20))), Some(Lit(Int(10)))), first, [b]);
    TwoScans(op);
    SortSkipTake(Combine(first, [b]));
  }

  /** SELECT * FROM test1 UNION ALL SELECT * FROM test2 ORDER BY a LIMIT 10 OFFSET 20 */
  lemma WithUnionAllAndModifiers()
    ensures Compile(SelectQuery(StarFrom("test1", None), [StarBranch(UnionAll, "test2")],
                                Some(FieldPath(["a"])), Unspecified, Some(Lit(Int(20))), Some(Lit(Int(10))))) ==
            Ok(StreamStmt([Concat([ScanAll("test1"), ScanAll("test2")]), Sort(Col(["a"])), Skip(20), Take(10)], true))
  {
    TwoWithModifiers(UnionAll);
    assert Node(UnionAll, [ScanAll("test1"), ScanAll("test2")]) == [Concat([ScanAll("test1"), ScanAll("test2")])];
    assert [Concat([ScanAll("test1"), ScanAll("test2")])] + [Sort(Col(["a"])), Skip(20), Take(10)] ==
           [Concat([ScanAll("test1"), ScanAll("test2")]), Sort(Col(["a"])), Skip(20), Take(10)];
  }

  /** SELECT * FROM test1 UNION SELECT * FROM test2 ORDER BY a LIMIT 10 OFFSET 20 */
  lemma WithUnionAndModifiers()
    ensures Compile(SelectQuery(StarFrom("test1", None), [StarBranch(UnionDistinct, "test2")],
                                Some(FieldPath(["a"])), Unspecified, Some(Lit(Int(20))), Some(Lit(Int(10))))) ==
            Ok(StreamStmt([Union([ScanAll("test1"), ScanAll("test2")]), Sort(Col(["a"])), Skip(20), Take(10)], true))
  {
    TwoWithModifiers(UnionDistinct);
    assert Node(UnionDistinct, [ScanAll("test1"), ScanAll("test2")]) == [Union([ScanAll("test1"), ScanAll("test2")])];
    assert [Union([ScanAll("test1"), ScanAll("test2")])] + [Sort(Col(["a"])), Skip(20), Take(10)] ==
           [Union([ScanAll("test1"), ScanAll("test2")]), Sort(Col(["a"])), Skip(20), Take(10)];
  }

  /** a UNION ALL b UNION ALL c */
  lemma MultipleCompoundOps1()
    ensures Combine(StreamStmt(ScanAll("a"), true), [ScanBranch(UnionAll, "b"), ScanBranch(UnionAll, "c")]) ==
            StreamStmt([Concat([ScanAll("a"), ScanAll("b"), ScanAll("c")])], true)
  {
    var bs := [ScanBranch(UnionAll, "b"), ScanBranch(UnionAll, "c")];
    SameOperatorFlattens(StreamStmt(ScanAll("a"), true), bs, UnionAll);
    var r := Combine(StreamStmt(ScanAll("a"), true), bs);
    assert r.readOnly;
    assert [ScanAll("a")] + BranchStreams(bs) == [ScanAll("a"), ScanAll("b"), ScanAll("c")];
  }

  /** a UNION ALL b UNION c */
  lemma MultipleCompoundOps2()
    ensures Combine(StreamStmt(ScanAll("a"), true), [ScanBranch(UnionAll, "b"), ScanBranch(UnionDistinct, "c")]) ==
            StreamStmt([Union([[Concat([ScanAll("a"), ScanAll("b")])], ScanAll("c")])], true)
  {
    var first := StreamStmt(ScanAll("a"), true);
    var ab := [ScanBranch(UnionAll, "b")];
    var c := ScanBranch(UnionDistinct, "c");
    SameOperatorFlattens(first, ab, UnionAll);
    assert [ScanAll("a")] + BranchStreams(ab) == [ScanAll("a"), ScanAll("b")];
    SwitchClosesRun(first, ab, c);
    assert ab + [c] == [ScanBranch(UnionAll, "b"), c];
    assert Combine(first, ab + [c]).readOnly;
  }

  /** a UNION ALL b UNION ALL c UNION d */
  lemma MultipleCompoundOps2b()
    ensures Combine(StreamStmt(ScanAll("a"), true),
                    [ScanBranch(UnionAll, "b"), ScanBranch(UnionAll, "c"), ScanBranch(UnionDistinct, "d")]) ==
            StreamStmt([Union([[Concat([ScanAll("a"), ScanAll("b"), ScanAll("c")])], ScanAll("d")])], true)
  {
    var first := StreamStmt(ScanAll("a"), true);
    var abc := [ScanBranch(UnionAll, "b"), ScanBranch(UnionAll, "c")];
    var d := ScanBranch(UnionDistinct, "d");
    MultipleCompoundOps1();
    SwitchClosesRun(first, abc, d);
    assert abc + [d] == [ScanBranch(UnionAll, "b"), ScanBranch(UnionAll, "c"), d];
    assert Combine(first, abc + [d]).readOnly;
  }

  /** a UNION ALL b UNION c UNION d */
  lemma MultipleCompoundOps3()
    ensures Combine(StreamStmt(ScanAll("a"), true),
                    [ScanBranch(UnionAll, "b"), ScanBranch(UnionDistinct, "c"), ScanBranch(UnionDistinct, "d")]) ==
            StreamStmt([Union([[Concat([ScanAll("a"), ScanAll("b")])], ScanAll("c"), ScanAll("d")])], true)
  {
    var first := StreamStmt(ScanAll("a"), true);
    var abc := [ScanBranch(UnionAll, "b"), ScanBranch(UnionDistinct, "c")];
    var d := ScanBranch(UnionDistinct, "d");
    MultipleCompoundOps2();
    SameOperatorExtendsRun(first, abc, d);
    assert [[Concat([ScanAll("a"), ScanAll("b")])], ScanAll("c")] + [ScanAll("d")] ==
           [[Concat([ScanAll("a"), ScanAll("b")])], ScanAll("c"), ScanAll("d")];
    assert abc + [d] == [ScanBranch(UnionAll, "b"), ScanBranch(UnionDistinct, "c"), d];
    assert Combine(first, abc + [d]).readOnly;
  }

  /** a UNION ALL b UNION c UNION ALL d: strictly left-associative. */
  lemma MultipleCompoundOps4()
    ensures Combine(StreamStmt(ScanAll("a"), true),
                    [ScanBranch(UnionAll, "b"), ScanBranch(UnionDistinct, "c"), ScanBranch(UnionAll, "d")]) ==
            StreamStmt([Concat([[Union([[Concat([ScanAll("a"), ScanAll("b")])], ScanAll("c")])], ScanAll("d")])], true)
  {
    var first := StreamStmt(ScanAll("a"), true);
    var abc := [ScanBranch(UnionAll, "b"), ScanBranch(UnionDistinct, "c")];
    var d := ScanBranch(UnionAll, "d");
    MultipleCompoundOps2();
    SwitchClosesRun(first, abc, d);
    assert abc + [d] == [ScanBranch(UnionAll, "b"), ScanBranch(UnionDistinct, "c"), d];
    assert Combine(first, abc + [d]).readOnly;
  }

  /** The whole statement for a UNION ALL b UNION c UNION ALL d, from the parsed cores. */
  lemma MultipleCompoundOps4Compiles()
    ensures Compile(SelectQuery(StarFrom("a", None),
                                [StarBranch(UnionAll, "b"), StarBranch(UnionDistinct, "c"), StarBranch(UnionAll, "d")],
                                None, Unspecified, None, None)) ==
            Ok(StreamStmt([Concat([[Union([[Concat([ScanAll("a"), ScanAll("b")])], ScanAll("c")])], ScanAll("d")])], true))
  {
    var rest := [StarBranch(UnionAll, "b"), StarBranch(UnionDistinct, "c"), StarBranch(UnionAll, "d")];
    var bs := [ScanBranch(UnionAll, "b"), ScanBranch(UnionDistinct, "c"), ScanBranch(UnionAll, "d")];
    StarCompiles("a", None);
    StarCompiles("b", None);
    StarCompiles("c", None);
    StarCompiles("d", None);
    ThreeBranchesCompile(rest[0], rest[1], rest[2], bs[0].stmt, bs[1].stmt, bs[2].stmt);
    QueryCompiles(SelectQuery(StarFrom("a", None), rest, None, Unspecified, None, None), StreamStmt(ScanAll("a"), true), bs);
    MultipleCompoundOps4();
    var st := Combine(StreamStmt(ScanAll("a"), true), bs);
    ModifierSteps(SelectStmt(st, None, Unspecified, None, None), st.stream, st.stream);
  }

  /** The same chain with NEXT VALUE FOR in the last core, once the cores are compiled. */
  lemma NextValueChainCombines()
    ensures
      var nv := Named("NEXT VALUE FOR foo", NextValueFor("foo"));
      var last := Branch(UnionAll, StreamStmt([SeqScan("d"), Project([nv])], false));
      Combine(StreamStmt(ScanAll("a"), true), [ScanBranch(UnionAll, "b"), ScanBranch(UnionDistinct, "c"), last]) ==
      StreamStmt([Concat([[Union([[Concat([ScanAll("a"), ScanAll("b")])], ScanAll("c")])],
                          [SeqScan("d"), Project([nv])]])], false)
  {
    var nv := Named("NEXT VALUE FOR foo", NextValueFor("foo"));
    var last := Branch(UnionAll, StreamStmt([SeqScan("d"), Project([nv])], false));
    var first := StreamStmt(ScanAll("a"), true);
    var abc := [ScanBranch(UnionAll, "b"), ScanBranch(UnionDistinct, "c")];
    MultipleCompoundOps2();
    SwitchClosesRun(first, abc, last);
    var rest := abc + [last];
    assert rest == [ScanBranch(UnionAll, "b"), ScanBranch(UnionDistinct, "c"), last];
    assert !rest[2].stmt.readOnly;
    assert !Combine(first, rest).readOnly;
  }

  /**
   * a UNION ALL b UNION c UNION ALL SELECT NEXT VALUE FOR foo FROM d, from
   * the parsed cores: the same tree, and not read-only.
   */
  lemma MultipleCompoundOpsAndNextValueFor4()
    ensures Compile(SelectQuery(StarFrom("a", None),
                                [StarBranch(UnionAll, "b"), StarBranch(UnionDistinct, "c"), CoreBranch(UnionAll, NextValueFrom("d"))],
                                None, Unspecified, None, None)) ==
            Ok(StreamStmt([Concat([[Union([[Concat([ScanAll("a"), ScanAll("b")])], ScanAll("c")])],
                                   [SeqScan("d"), Project([NextValueFoo])]])], false))
  {
    var rest := [StarBranch(UnionAll, "b"), StarBranch(UnionDistinct, "c"), CoreBranch(UnionAll, NextValueFrom("d"))];
    var bs := [ScanBranch(UnionAll, "b"), ScanBranch(UnionDistinct, "c"),
               Branch(UnionAll, StreamStmt([SeqScan("d"), Project([NextValueFoo])], false))];
    StarCompiles("a", None);
    StarCompiles("b", None);
    StarCompiles("c", None);
    NextValueCompiles("d");
    ThreeBranchesCompile(rest[0], rest[1], rest[2], bs[0].stmt, bs[1].stmt, bs[2].stmt);
    QueryCompiles(SelectQuery(StarFrom("a", None), rest, None, Unspecified, None, None), StreamStmt(ScanAll("a"), true), bs);
    NextValueChainCombines();
    var st := Combine(StreamStmt(ScanAll("a"), true), bs);
    ModifierSteps(SelectStmt(st, None, Unspecified, None, None), st.stream, st.stream);
  }
}
