/**
 * A whole SELECT statement: compound cores joined by UNION / UNION ALL,
 * then ORDER BY, OFFSET and LIMIT. This is the composition the parser
 * performs around the compiler while it reads the statement.
 */
module Query {
  import opened Results
  import opened Values
  import opened Exprs
  import opened Errors
  import opened Streams
  import opened SelectCore
  import opened SelectModifiers
  import opened Compound

  /** A core after the first, with the set operator written before it. */
  datatype CoreBranch = CoreBranch(op: SetOp, core: SelectCoreStmt)

  datatype SelectQuery = SelectQuery(
    first: SelectCoreStmt,
    rest: seq<CoreBranch>,
    orderBy: Option<Path>,
    direction: Direction,
    offset: Option<Expr>,
    limit: Option<Expr>)

  /** Compiles the cores after the first, left to right; the first failure wins. */
  function CompileBranches(rest: seq<CoreBranch>, render: Expr -> string): (r: Result<seq<Branch>, Error>)
    ensures r.Ok? <==> forall i :: 0 <= i < |rest| ==> CompileCore(rest[i].core, render).Ok?
    ensures r.Ok? ==> |r.value| == |rest|
    ensures r.Ok? ==>
      forall i :: 0 <= i < |rest| ==> r.value[i] == Branch(rest[i].op, CompileCore(rest[i].core, render).value)
    decreases |rest|
  {
    if |rest| == 0 then Ok([])
    else
      match CompileCore(rest[0].core, render)
      case Err(e) => Err(e)
      case Ok(st) =>
        match CompileBranches(rest[1..], render)
        case Err(e) => Err(e)
        case Ok(bs) => Ok([Branch(rest[0].op, st)] + bs)
  }

  /** The first failing core of the tail is, one position on, the first failing core of the whole chain. */
  lemma FailureShifts(rest: seq<CoreBranch>, render: Expr -> string, e: Error, i: nat)
    requires |rest| > 0 && CompileCore(rest[0].core, render).Ok?
    requires i < |rest| - 1 && CompileCore(rest[1..][i].core, render) == Err(e)
    requires forall j :: 0 <= j < i ==> CompileCore(rest[1..][j].core, render).Ok?
    ensures CompileCore(rest[i + 1].core, render) == Err(e)
    ensures forall j :: 0 <= j < i + 1 ==> CompileCore(rest[j].core, render).Ok?
  {
    assert rest[i + 1] == rest[1..][i];
    forall j | 0 < j < i + 1
      ensures CompileCore(rest[j].core, render).Ok?
    {
      assert rest[j] == rest[1..][j - 1];
    }
  }

  /** A failure of the later cores is the error of the first one that fails. */
  lemma {:induction false} FirstFailingBranch(rest: seq<CoreBranch>, render: Expr -> string)
    requires CompileBranches(rest, render).Err?
    ensures exists i ::
      0 <= i < |rest| && CompileCore(rest[i].core, render) == Err(CompileBranches(rest, render).error) &&
      forall j :: 0 <= j < i ==> CompileCore(rest[j].core, render).Ok?
    decreases |rest|
  {
    var e := CompileBranches(rest, render).error;
    if CompileCore(rest[0].core, render).Err? {
      assert CompileCore(rest[0].core, render) == Err(e);
    } else {
      assert CompileBranches(rest[1..], render) == Err(e);
      FirstFailingBranch(rest[1..], render);
      var i :|
        0 <= i < |rest[1..]| && CompileCore(rest[1..][i].core, render) == Err(e) &&
        forall j :: 0 <= j < i ==> CompileCore(rest[1..][j].core, render).Ok?;
      FailureShifts(rest, render, e, i);
    }
  }

  /**
   * The whole statement: every core, then the compound fold, then the
   * modifiers. The first error wins: the first core's, then the first
   * failing later core's, then OFFSET's, then LIMIT's.
   */
  function CompileSelect(q: SelectQuery, render: Expr -> string, eval: Expr -> Result<Value, Error>): (r: Result<StreamStmt, Error>)
    ensures r.Ok? <==>
      CompileCore(q.first, render).Ok? && CompileBranches(q.rest, render).Ok? &&
      CountOk(q.offset, eval) && CountOk(q.limit, eval)
    ensures CompileCore(q.first, render).Err? ==> r == Err(CompileCore(q.first, render).error)
    ensures CompileCore(q.first, render).Ok? && CompileBranches(q.rest, render).Err? ==>
      r == Err(CompileBranches(q.rest, render).error)
    ensures CompileCore(q.first, render).Ok? && CompileBranches(q.rest, render).Ok? && !CountOk(q.offset, eval) ==>
      r == EvalCount(q.offset.value, OffsetClause, eval).PropagateFailure()
    ensures (CompileCore(q.first, render).Ok? && CompileBranches(q.rest, render).Ok? &&
             CountOk(q.offset, eval) && !CountOk(q.limit, eval)) ==>
      r == EvalCount(q.limit.value, LimitClause, eval).PropagateFailure()
  {
    var first :- CompileCore(q.first, render);
    var rest :- CompileBranches(q.rest, render);
    ApplyModifiers(SelectStmt(Combine(first, rest), q.orderBy, q.direction, q.offset, q.limit), eval)
  }

  /** Every compiled core ends in Project, or in the Union that DISTINCT adds. */
  lemma CoreEndsUnmodified(c: SelectCoreStmt, render: Expr -> string)
    requires CompileCore(c, render).Ok?
    ensures EndsUnmodified(CompileCore(c, render).value.stream)
  {
  }

  /** Folding compiled cores never ends in a modifier stage either. */
  lemma CombineEndsUnmodified(c: SelectCoreStmt, rest: seq<Branch>, render: Expr -> string)
    requires CompileCore(c, render).Ok?
    ensures EndsUnmodified(Combine(CompileCore(c, render).value, rest).stream)
  {
    if |rest| == 0 {
      CoreEndsUnmodified(c, render);
    }
  }

  /**
   * The modifiers apply to the whole compound: reading them back off the
   * compiled statement leaves exactly the combined cores.
   */
  lemma ModifiersFollowCompound(q: SelectQuery, render: Expr -> string, eval: Expr -> Result<Value, Error>)
    requires CompileSelect(q, render, eval).Ok?
    ensures ReadModifiers(CompileSelect(q, render, eval).value.stream) ==
      (Combine(CompileCore(q.first, render).value, CompileBranches(q.rest, render).value).stream,
       Modifiers(OrderingOf(q.orderBy, q.direction), CountOf(q.offset, eval), CountOf(q.limit, eval)))
  {
    var first := CompileCore(q.first, render).value;
    var rest := CompileBranches(q.rest, render).value;
    var stmt := SelectStmt(Combine(first, rest), q.orderBy, q.direction, q.offset, q.limit);
    assert CompileSelect(q, render, eval) == ApplyModifiers(stmt, eval);
    CombineEndsUnmodified(q.first, rest, render);
    ModifiersReadBack(stmt, eval);
  }

  /** The statement is read-only iff every one of its cores is. */
  lemma ReadOnlyIsConjunction(q: SelectQuery, render: Expr -> string, eval: Expr -> Result<Value, Error>)
    requires CompileSelect(q, render, eval).Ok?
    ensures CompileSelect(q, render, eval).value.readOnly <==>
      CompileCore(q.first, render).value.readOnly &&
      forall i :: 0 <= i < |q.rest| ==> CompileCore(q.rest[i].core, render).value.readOnly
  {
  }
}
