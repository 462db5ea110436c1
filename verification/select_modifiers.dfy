/**
 * The modifiers of a full SELECT statement: ORDER BY, OFFSET and LIMIT,
 * appended after the compiled (possibly compound) stream.
 */
module SelectModifiers {
  import opened Results
  import opened Values
  import opened Exprs
  import opened Errors
  import opened Streams

  /** The direction token after ORDER BY; only DESC reverses. */
  datatype Direction = Unspecified | Asc | Desc

  datatype SelectStmt = SelectStmt(
    compound: StreamStmt,
    orderBy: Option<Path>,
    direction: Direction,
    offset: Option<Expr>,
    limit: Option<Expr>)

  /** Which clause an evaluated count belongs to, for the error it raises. */
  datatype Clause = OffsetClause | LimitClause

  /** The error a count of the wrong type raises. */
  function NotNumber(clause: Clause, got: ValueType): Error {
    match clause
    case OffsetClause => OffsetNotNumber(got)
    case LimitClause => LimitNotNumber(got)
  }

  /**
   * Evaluates an OFFSET or LIMIT expression once, in an empty environment.
   * `eval` stands for the expression evaluator; the cast of an integer to
   * an integer is the identity.
   */
  function EvalCount(e: Expr, clause: Clause, eval: Expr -> Result<Value, Error>): (r: Result<int, Error>)
    ensures r.Ok? <==> eval(e).Ok? && eval(e).value.Int?
    ensures r.Ok? ==> eval(e) == Ok(Int(r.value))
    ensures eval(e).Err? ==> r == Err(eval(e).error)
    ensures eval(e).Ok? && !IsNumber(eval(e).value) ==> r == Err(NotNumber(clause, TypeOf(eval(e).value)))
  {
    match eval(e)
    case Err(err) => Err(err)
    case Ok(v) => if !IsNumber(v) then Err(NotNumber(clause, TypeOf(v))) else Ok(v.i)
  }

  /** True iff an optional count clause is absent or evaluates to an integer. */
  predicate CountOk(e: Option<Expr>, eval: Expr -> Result<Value, Error>) {
    e.None? || (eval(e.value).Ok? && eval(e.value).value.Int?)
  }

  /** The ordering an ORDER BY clause asks for. */
  datatype Ordering = Ascending(key: Expr) | Descending(key: Expr)

  /** The modifier stages found at the end of a stream. */
  datatype Modifiers = Modifiers(order: Option<Ordering>, skip: Option<int>, take: Option<int>)

  function OrderingOf(orderBy: Option<Path>, direction: Direction): Option<Ordering> {
    match orderBy
    case None => None
    case Some(p) => if direction == Desc then Some(Descending(PathRef(p))) else Some(Ascending(PathRef(p)))
  }

  /** The ORDER BY stage appended to a stream, if any. */
  function AppendOrder(s: Stream, orderBy: Option<Path>, direction: Direction): Stream {
    match orderBy
    case None => s
    case Some(p) => if direction == Desc then s + [SortReverse(PathRef(p))] else s + [Sort(PathRef(p))]
  }

  /** The stage a count clause becomes. */
  function CountStage(clause: Clause, n: int): Stage {
    match clause
    case OffsetClause => Skip(n)
    case LimitClause => Take(n)
  }

  /** Appends the Skip or Take stage of a count clause, if present and numeric. */
  function AppendCount(s: Stream, e: Option<Expr>, clause: Clause, eval: Expr -> Result<Value, Error>): Result<Stream, Error> {
    match e
    case None => Ok(s)
    case Some(x) =>
      match EvalCount(x, clause, eval)
      case Err(err) => Err(err)
      case Ok(n) => Ok(s + [CountStage(clause, n)])
  }

  /**
   * Appends Sort or SortReverse, then Skip, then Take to the compound
   * stream. OFFSET is evaluated before LIMIT, so its error wins.
   */
  function ApplyModifiers(stmt: SelectStmt, eval: Expr -> Result<Value, Error>): (r: Result<StreamStmt, Error>)
    ensures r.Ok? <==> CountOk(stmt.offset, eval) && CountOk(stmt.limit, eval)
    ensures !CountOk(stmt.offset, eval) ==> r == EvalCount(stmt.offset.value, OffsetClause, eval).PropagateFailure()
    ensures CountOk(stmt.offset, eval) && !CountOk(stmt.limit, eval) ==>
      r == EvalCount(stmt.limit.value, LimitClause, eval).PropagateFailure()
    ensures r.Ok? ==> r.value.readOnly == stmt.compound.readOnly
    ensures r.Ok? ==> stmt.compound.stream <= r.value.stream
    ensures r.Ok? ==>
      |r.value.stream| - |stmt.compound.stream| ==
      (if stmt.orderBy.Some? then 1 else 0) + (if stmt.offset.Some? then 1 else 0) + (if stmt.limit.Some? then 1 else 0)
  {
    var ordered := AppendOrder(stmt.compound.stream, stmt.orderBy, stmt.direction);
    var skipped :- AppendCount(ordered, stmt.offset, OffsetClause, eval);
    var taken :- AppendCount(skipped, stmt.limit, LimitClause, eval);
    Ok(StreamStmt(taken, stmt.compound.readOnly))
  }

  /** True iff the last stage is not a modifier, as for every compiled SELECT body. */
  predicate EndsUnmodified(s: Stream) {
    |s| > 0 && !(s[|s| - 1].Sort? || s[|s| - 1].SortReverse? || s[|s| - 1].Skip? || s[|s| - 1].Take?)
  }

  function PeelTake(s: Stream): (Stream, Option<int>) {
    if |s| > 0 && s[|s| - 1].Take? then (s[..|s| - 1], Some(s[|s| - 1].count)) else (s, None)
  }

  function PeelSkip(s: Stream): (Stream, Option<int>) {
    if |s| > 0 && s[|s| - 1].Skip? then (s[..|s| - 1], Some(s[|s| - 1].count)) else (s, None)
  }

  function PeelOrder(s: Stream): (Stream, Option<Ordering>) {
    if |s| > 0 && s[|s| - 1].Sort? then (s[..|s| - 1], Some(Ascending(s[|s| - 1].key)))
    else if |s| > 0 && s[|s| - 1].SortReverse? then (s[..|s| - 1], Some(Descending(s[|s| - 1].key)))
    else (s, None)
  }

  /** Peels Take, then Skip, then an ORDER BY sort off the end of a stream. */
  function ReadModifiers(s: Stream): (Stream, Modifiers) {
    var (s1, take) := PeelTake(s);
    var (s2, skip) := PeelSkip(s1);
    var (s3, order) := PeelOrder(s2);
    (s3, Modifiers(order, skip, take))
  }

  function CountOf(e: Option<Expr>, eval: Expr -> Result<Value, Error>): Option<int>
    requires CountOk(e, eval)
  {
    if e.None? then None else Some(eval(e.value).value.i)
  }

  /** The ORDER BY stage appended to a stream that ends unmodified is peeled back off it. */
  lemma OrderPeels(base: Stream, orderBy: Option<Path>, direction: Direction)
    requires EndsUnmodified(base)
    ensures PeelOrder(AppendOrder(base, orderBy, direction)) == (base, OrderingOf(orderBy, direction))
  {
    if orderBy.Some? {
      var ordered := AppendOrder(base, orderBy, direction);
      assert ordered[..|ordered| - 1] == base;
    }
  }

  /** The Skip stage of a numeric OFFSET is peeled back off, leaving the stream it was appended to. */
  lemma SkipPeels(s: Stream, e: Option<Expr>, eval: Expr -> Result<Value, Error>)
    requires |s| > 0 && !s[|s| - 1].Skip?
    requires CountOk(e, eval)
    ensures AppendCount(s, e, OffsetClause, eval).Ok?
    ensures PeelSkip(AppendCount(s, e, OffsetClause, eval).value) == (s, CountOf(e, eval))
  {
    if e.Some? {
      var t := AppendCount(s, e, OffsetClause, eval).value;
      assert t == s + [Skip(eval(e.value).value.i)];
      assert t[..|t| - 1] == s;
    }
  }

  /** The Take stage of a numeric LIMIT is peeled back off, leaving the stream it was appended to. */
  lemma TakePeels(s: Stream, e: Option<Expr>, eval: Expr -> Result<Value, Error>)
    requires |s| > 0 && !s[|s| - 1].Take?
    requires CountOk(e, eval)
    ensures AppendCount(s, e, LimitClause, eval).Ok?
    ensures PeelTake(AppendCount(s, e, LimitClause, eval).value) == (s, CountOf(e, eval))
  {
    if e.Some? {
      var t := AppendCount(s, e, LimitClause, eval).value;
      assert t == s + [Take(eval(e.value).value.i)];
      assert t[..|t| - 1] == s;
    }
  }

  /**
   * Round trip: the stages appended can be read back as exactly the
   * ordering, the offset and the limit the statement asked for, in that
   * order, in front of the unchanged compound stream.
   */
  lemma ModifiersReadBack(stmt: SelectStmt, eval: Expr -> Result<Value, Error>)
    requires EndsUnmodified(stmt.compound.stream)
    requires ApplyModifiers(stmt, eval).Ok?
    ensures ReadModifiers(ApplyModifiers(stmt, eval).value.stream) ==
      (stmt.compound.stream,
       Modifiers(OrderingOf(stmt.orderBy, stmt.direction), CountOf(stmt.offset, eval), CountOf(stmt.limit, eval)))
  {
    var base := stmt.compound.stream;
    var ordered := AppendOrder(base, stmt.orderBy, stmt.direction);
    OrderPeels(base, stmt.orderBy, stmt.direction);
    assert |ordered| > 0 && !ordered[|ordered| - 1].Skip?;
    SkipPeels(ordered, stmt.offset, eval);
    var skipped := AppendCount(ordered, stmt.offset, OffsetClause, eval).value;
    assert |skipped| > 0 && !skipped[|skipped| - 1].Take?;
    TakePeels(skipped, stmt.limit, eval);
    var taken := AppendCount(skipped, stmt.limit, LimitClause, eval).value;
    assert ApplyModifiers(stmt, eval).value.stream == taken;
  }
}
