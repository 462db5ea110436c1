/**
 * Compilation of one SELECT core (FROM, WHERE, GROUP BY, projections,
 * DISTINCT) into a stream of operator stages plus its read-only flag.
 */
module SelectCore {
  import opened Results
  import opened Values
  import opened Exprs
  import opened Errors
  import opened Streams

  /** The parsed core; an empty table name means the query has no FROM. */
  datatype SelectCoreStmt = SelectCoreStmt(
    table: string,
    distinct: bool,
    where: Option<Expr>,
    groupBy: Option<Expr>,
    projections: seq<Expr>)

  /** What a GROUP BY query may project: a named aggregator or a named copy of the key. */
  predicate Groupable(p: Expr, key: Expr) {
    p.Named? && (p.inner.Aggregate? || p.inner == key)
  }

  /** True iff the query either has no GROUP BY or every projection is groupable. */
  predicate ValidGrouping(c: SelectCoreStmt) {
    c.groupBy.None? || forall i :: 0 <= i < |c.projections| ==> Groupable(c.projections[i], c.groupBy.value)
  }

  /**
   * The projection a key match turns into: it keeps its output name and
   * reads the single field the aggregation names after the rendered key.
   */
  function KeyColumn(p: Expr, key: Expr, render: Expr -> string): Expr {
    if p.Named? && !p.inner.Aggregate? && p.inner == key
    then Named(p.name, PathRef([Key(render(key))]))
    else p
  }

  /** The projections Project receives, position by position. */
  function Outputs(c: SelectCoreStmt, render: Expr -> string): seq<Expr> {
    if c.groupBy.None? then c.projections
    else seq(|c.projections|, i requires 0 <= i < |c.projections| =>
               KeyColumn(c.projections[i], c.groupBy.value, render))
  }

  /** A projection a FROM-less query cannot evaluate: a path or `*` at any depth. */
  predicate ReferencesFields(es: seq<Expr>) {
    AnyContains(es, PathKind) || AnyContains(es, WildcardKind)
  }

  /**
   * The aggregators of a projection list: the inner expressions of named
   * projections whose top node is an aggregator, in projection order.
   * Projections that are not named (such as `*`) are skipped.
   */
  function Aggregators(ps: seq<Expr>): (aggs: seq<Expr>)
    ensures |aggs| <= |ps|
    ensures forall k :: 0 <= k < |aggs| ==> aggs[k].Aggregate?
    ensures aggs == [] <==> forall i :: 0 <= i < |ps| ==> !IsAggregateProjection(ps[i])
  {
    if |ps| == 0 then []
    else (if IsAggregateProjection(ps[0]) then [ps[0].inner] else []) + Aggregators(ps[1..])
  }

  /** Every projected aggregator is collected. */
  lemma {:induction false} AggregatorCollected(ps: seq<Expr>, i: nat)
    requires i < |ps| && IsAggregateProjection(ps[i])
    ensures ps[i].inner in Aggregators(ps)
    decreases i
  {
    if i > 0 {
      AggregatorCollected(ps[1..], i - 1);
      assert ps[1..][i - 1] == ps[i];
    }
  }

  /** The outcome of the GROUP BY walk: rewritten projections and the aggregators found. */
  datatype Grouped = Grouped(projections: seq<Expr>, aggs: seq<Expr>)

  /**
   * The GROUP BY walk over the projections: collects aggregators, rewrites
   * copies of the key, and stops at the first projection that is neither.
   */
  function ResolveGroupBy(ps: seq<Expr>, key: Expr, render: Expr -> string): (r: Result<Grouped, Error>)
    ensures r.Ok? <==> forall i :: 0 <= i < |ps| ==> Groupable(ps[i], key)
    ensures r.Err? ==>
      exists i :: 0 <= i < |ps| && !Groupable(ps[i], key) && r.error == NotInGroupBy(ps[i]) &&
        forall j :: 0 <= j < i ==> Groupable(ps[j], key)
    ensures r.Ok? ==> |r.value.projections| == |ps|
    ensures r.Ok? ==> forall i :: 0 <= i < |ps| ==>
      if ps[i].inner.Aggregate? then r.value.projections[i] == ps[i]
      else r.value.projections[i] == Named(ps[i].name, PathRef([Key(render(key))]))
    ensures r.Ok? ==> r.value.aggs == Aggregators(ps)
  {
    if |ps| == 0 then Ok(Grouped([], []))
    else if !Groupable(ps[0], key) then Err(NotInGroupBy(ps[0]))
    else
      match ResolveGroupBy(ps[1..], key, render)
      case Err(e) => Err(e)
      case Ok(g) =>
        var p := ps[0];
        Ok(Grouped([KeyColumn(p, key, render)] + g.projections,
                   (if p.inner.Aggregate? then [p.inner] else []) + g.aggs))
  }

  /** The source stages: a table scan when there is a FROM, then the WHERE filter. */
  function SourceStages(table: string, where: Option<Expr>): Stream {
    (if table != "" then [SeqScan(table)] else []) +
    (if where.Some? then [Filter(where.value)] else [])
  }

  /** The aggregation stages for the grouping key (if any) and the collected aggregators. */
  function AggregationStages(groupBy: Option<Expr>, aggs: seq<Expr>): Stream {
    if groupBy.Some? then [Sort(groupBy.value), GroupAggregate(groupBy, aggs)]
    else if |aggs| > 0 then [GroupAggregate(None, aggs)]
    else []
  }

  /** The grouping step of the compiler: the GROUP BY walk, or plain aggregator collection. */
  function Group(c: SelectCoreStmt, render: Expr -> string): (r: Result<Grouped, Error>)
    ensures r.Ok? <==> ValidGrouping(c)
    ensures r.Ok? ==> r.value.projections == Outputs(c, render)
    ensures r.Ok? ==> r.value.aggs == Aggregators(c.projections)
  {
    if c.groupBy.Some? then ResolveGroupBy(c.projections, c.groupBy.value, render)
    else Ok(Grouped(c.projections, Aggregators(c.projections)))
  }

  /**
   * SELECT core compilation. `render` gives the text form of the GROUP BY
   * key, which names the field the rewritten projections read.
   */
  function CompileCore(c: SelectCoreStmt, render: Expr -> string): (r: Result<StreamStmt, Error>)
    ensures r.Ok? <==> ValidGrouping(c) && (c.table != "" || !ReferencesFields(Outputs(c, render)))
    ensures r.Err? && !ValidGrouping(c) ==>
      exists i :: 0 <= i < |c.projections| && r.error == NotInGroupBy(c.projections[i]) &&
        !Groupable(c.projections[i], c.groupBy.value) &&
        forall j :: 0 <= j < i ==> Groupable(c.projections[j], c.groupBy.value)
    ensures r.Err? && ValidGrouping(c) ==> r.error == NoTablesSpecified
    ensures r.Ok? ==> (r.value.readOnly <==> !AnyContains(Outputs(c, render), NextValueForKind))
    ensures r.Ok? && c.distinct ==> |r.value.stream| == 1 && r.value.stream[0].Union?
    ensures r.Ok? && !c.distinct ==>
      |r.value.stream| > 0 && r.value.stream[|r.value.stream| - 1] == Project(Outputs(c, render))
    ensures r.Ok? && !c.distinct && c.table != "" ==> r.value.stream[0] == SeqScan(c.table)
    ensures r.Ok? && c.table == "" ==> forall i :: 0 <= i < |r.value.stream| ==> !r.value.stream[i].SeqScan?
  {
    match Group(c, render)
    case Err(e) => Err(e)
    case Ok(g) =>
      if c.table == "" && ReferencesFields(g.projections) then Err(NoTablesSpecified)
      else
        var s := SourceStages(c.table, c.where) + AggregationStages(c.groupBy, g.aggs) + [Project(g.projections)];
        var readOnly := !AnyContains(g.projections, NextValueForKind);
        Ok(StreamStmt(if c.distinct then [Union([s])] else s, readOnly))
  }

  /** Aggregator collection distributes over concatenation: it keeps projection order. */
  lemma {:induction false} AggregatorsAppend(a: seq<Expr>, b: seq<Expr>)
    ensures Aggregators(a + b) == Aggregators(a) + Aggregators(b)
    decreases |a|
  {
    if |a| == 0 {
      assert a + b == b;
    } else {
      var h := if IsAggregateProjection(a[0]) then [a[0].inner] else [];
      assert (a + b)[0] == a[0];
      assert (a + b)[1..] == a[1..] + b;
      assert Aggregators(a + b) == h + Aggregators(a[1..] + b);
      AggregatorsAppend(a[1..], b);
      assert h + (Aggregators(a[1..]) + Aggregators(b)) == (h + Aggregators(a[1..])) + Aggregators(b);
    }
  }

  /** The grouping a compiled stream performs. */
  datatype Grouping = Ungrouped | Global(aggs: seq<Expr>) | ByKey(key: Expr, aggs: seq<Expr>)

  /** The parts of a core that a compiled stream shows. */
  datatype Plan = Plan(table: string, where: Option<Expr>, grouping: Grouping, outputs: seq<Expr>, distinct: bool)

  /** The grouping a core asks for. */
  function ExpectedGrouping(c: SelectCoreStmt): Grouping {
    GroupingOf(c.groupBy, Aggregators(c.projections))
  }

  function GroupingOf(groupBy: Option<Expr>, aggs: seq<Expr>): Grouping {
    if groupBy.Some? then ByKey(groupBy.value, aggs)
    else if aggs == [] then Ungrouped
    else Global(aggs)
  }

  /**
   * Reads a stream back as a plan, accepting exactly the stage orders
   * [SeqScan] [Filter] [Sort k, GroupAggregate k | GroupAggregate nil] Project,
   * optionally wrapped as the single input of a Union.
   */
  function ReadPlan(s: Stream): Option<Plan> {
    if |s| == 1 && s[0].Union? && |s[0].inputs| == 1 then
      match ReadUndistinct(s[0].inputs[0])
      case None => None
      case Some(p) => Some(p.(distinct := true))
    else ReadUndistinct(s)
  }

  function ReadUndistinct(s: Stream): Option<Plan> {
    if |s| == 0 || !s[|s| - 1].Project? then None
    else ReadBody(s[..|s| - 1], s[|s| - 1].exprs)
  }

  /** Reads the stages in front of the final Project, whose expressions are `outputs`. */
  function ReadBody(body: Stream, outputs: seq<Expr>): Option<Plan> {
    var (table, b1) := ReadScan(body);
    var (where, b2) := ReadFilter(b1);
    match ReadGrouping(b2)
    case None => None
    case Some(g) => Some(Plan(table, where, g, outputs, false))
  }

  /**
   * Splits off a leading scan of a named table: its table, or "" when there
   * is none. A scan of the empty name is never compiled, so it is not read
   * as one.
   */
  function ReadScan(s: Stream): (string, Stream) {
    if |s| > 0 && s[0].SeqScan? && s[0].table != "" then (s[0].table, s[1..]) else ("", s)
  }

  /** Splits off a leading filter. */
  function ReadFilter(s: Stream): (Option<Expr>, Stream) {
    if |s| > 0 && s[0].Filter? then (Some(s[0].pred), s[1..]) else (None, s)
  }

  /** The grouping the remaining stages perform, if they are aggregation stages at all. */
  function ReadGrouping(s: Stream): Option<Grouping> {
    if s == [] then Some(Ungrouped)
    else if |s| == 1 && s[0].GroupAggregate? && s[0].groupKey.None? then Some(Global(s[0].aggs))
    else if |s| == 2 && s[0].Sort? && s[1].GroupAggregate? && s[1].groupKey == Some(s[0].key)
    then Some(ByKey(s[0].key, s[1].aggs))
    else None
  }

  /**
   * Stage order: a compiled core is, in order, a scan exactly when there is
   * a table, a filter exactly when there is a WHERE, Sort and GroupAggregate
   * on the key under GROUP BY or a keyless GroupAggregate exactly when some
   * aggregator is projected, then Project; DISTINCT wraps all of it.
   */
  lemma CompileCoreReadsBack(c: SelectCoreStmt, render: Expr -> string)
    requires CompileCore(c, render).Ok?
    ensures ReadPlan(CompileCore(c, render).value.stream) ==
            Some(Plan(c.table, c.where, ExpectedGrouping(c), Outputs(c, render), c.distinct))
  {
    var g := Group(c, render).value;
    ReadParts(c.table, c.where, c.groupBy, g.aggs, g.projections);
  }

  /** Reading back the three groups of stages the compiler concatenates. */
  lemma ReadParts(table: string, where: Option<Expr>, groupBy: Option<Expr>, aggs: seq<Expr>, ps: seq<Expr>)
    ensures ReadUndistinct(SourceStages(table, where) + AggregationStages(groupBy, aggs) + [Project(ps)]) ==
            Some(Plan(table, where, GroupingOf(groupBy, aggs), ps, false))
  {
    var agg := AggregationStages(groupBy, aggs);
    SourceSplits(table, where, agg, ps);
    ReadLast((if table != "" then [SeqScan(table)] else []) + ((if where.Some? then [Filter(where.value)] else []) + agg), ps);
    AggregationStart(groupBy, aggs);
    GroupingReadsBack(groupBy, aggs);
    ReadBodyParts(table, where, agg, ps);
  }

  /** The compiled stages, regrouped as scan, then filter and aggregation, then Project. */
  lemma SourceSplits(table: string, where: Option<Expr>, agg: Stream, ps: seq<Expr>)
    ensures SourceStages(table, where) + agg + [Project(ps)] ==
      ((if table != "" then [SeqScan(table)] else []) + ((if where.Some? then [Filter(where.value)] else []) + agg)) + [Project(ps)]
  {
  }

  /** A stream ending in Project is read as the stages before it. */
  lemma ReadLast(body: Stream, ps: seq<Expr>)
    ensures ReadUndistinct(body + [Project(ps)]) == ReadBody(body, ps)
  {
    var s := body + [Project(ps)];
    assert s[..|s| - 1] == body;
  }

  /** Aggregation stages start with Sort or GroupAggregate, if with anything. */
  lemma AggregationStart(groupBy: Option<Expr>, aggs: seq<Expr>)
    ensures var agg := AggregationStages(groupBy, aggs); agg == [] || agg[0].Sort? || agg[0].GroupAggregate?
  {
  }

  /** Scan, filter and aggregation stages read back as their table, filter and grouping. */
  lemma ReadBodyParts(table: string, where: Option<Expr>, agg: Stream, ps: seq<Expr>)
    requires agg == [] || agg[0].Sort? || agg[0].GroupAggregate?
    requires ReadGrouping(agg).Some?
    ensures ReadBody((if table != "" then [SeqScan(table)] else []) + ((if where.Some? then [Filter(where.value)] else []) + agg), ps) ==
      Some(Plan(table, where, ReadGrouping(agg).value, ps, false))
  {
    var filt: Stream := if where.Some? then [Filter(where.value)] else [];
    assert filt + agg == [] || (filt + agg)[0].Filter? || (filt + agg)[0] == agg[0];
    ScanReadsBack(table, filt + agg);
    FilterReadsBack(where, agg);
  }

  /** The aggregation stages read back as the grouping that produced them. */
  lemma GroupingReadsBack(groupBy: Option<Expr>, aggs: seq<Expr>)
    ensures ReadGrouping(AggregationStages(groupBy, aggs)) == Some(GroupingOf(groupBy, aggs))
  {
    if groupBy.Some? {
      assert AggregationStages(groupBy, aggs) == [Sort(groupBy.value), GroupAggregate(groupBy, aggs)];
    } else if |aggs| > 0 {
      assert AggregationStages(groupBy, aggs) == [GroupAggregate(None, aggs)];
      assert aggs != [];
    } else {
      assert aggs == [];
    }
  }

  /** A scan put in front of stages that do not start with one is read back off them. */
  lemma ScanReadsBack(table: string, t: Stream)
    requires t == [] || !t[0].SeqScan?
    ensures ReadScan((if table != "" then [SeqScan(table)] else []) + t) == (table, t)
  {
    if table != "" {
      assert ([SeqScan(table)] + t)[1..] == t;
    } else {
      assert [] + t == t;
    }
  }

  /** A filter put in front of stages that do not start with one is read back off them. */
  lemma FilterReadsBack(where: Option<Expr>, t: Stream)
    requires t == [] || !t[0].Filter?
    ensures ReadFilter((if where.Some? then [Filter(where.value)] else []) + t) == (where, t)
  {
    if where.Some? {
      assert ([Filter(where.value)] + t)[1..] == t;
    } else {
      assert [] + t == t;
    }
  }

  /** A scan of the empty table name does not read back as a compiled core. */
  lemma EmptyScanNotRead(body: Stream, ps: seq<Expr>)
    ensures ReadPlan([SeqScan("")] + body + [Project(ps)]) == None
  {
    var s := [SeqScan("")] + body + [Project(ps)];
    assert s[|s| - 1] == Project(ps);
    assert s[..|s| - 1] == [SeqScan("")] + body;
    assert ReadScan([SeqScan("")] + body) == ("", [SeqScan("")] + body);
    assert ReadFilter([SeqScan("")] + body) == (None, [SeqScan("")] + body);
  }

  /** DISTINCT adds nothing but a single-input Union around the whole core stream. */
  lemma CompileCoreDistinct(c: SelectCoreStmt, render: Expr -> string)
    ensures CompileCore(c.(distinct := true), render) ==
      match CompileCore(c.(distinct := false), render)
      case Err(e) => Err(e)
      case Ok(st) => Ok(StreamStmt([Union([st.stream])], st.readOnly))
  {
  }

  /** The WHERE clause decides neither success nor the read-only flag. */
  lemma WhereNotConsulted(c: SelectCoreStmt, w: Option<Expr>, render: Expr -> string)
    ensures CompileCore(c, render).Ok? <==> CompileCore(c.(where := w), render).Ok?
    ensures CompileCore(c, render).Ok? ==>
      CompileCore(c, render).value.readOnly == CompileCore(c.(where := w), render).value.readOnly
  {
    assert Outputs(c, render) == Outputs(c.(where := w), render);
  }

  /** Without GROUP BY and without aggregators, the stream is [SeqScan?, Filter?, Project]. */
  lemma UngroupedShape(c: SelectCoreStmt, render: Expr -> string)
    requires c.groupBy.None? && !c.distinct
    requires forall i :: 0 <= i < |c.projections| ==> !IsAggregateProjection(c.projections[i])
    requires c.table != "" || !ReferencesFields(c.projections)
    ensures CompileCore(c, render).Ok?
    ensures CompileCore(c, render).value.stream ==
      (if c.table != "" then [SeqScan(c.table)] else []) +
      (if c.where.Some? then [Filter(c.where.value)] else []) +
      [Project(c.projections)]
  {
    assert Aggregators(c.projections) == [];
  }
}
