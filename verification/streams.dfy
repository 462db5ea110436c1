/**
 * Operator stages as structural descriptors. A stream is its list of
 * stages in execution order; Union and Concat own their input streams.
 */
module Streams {
  import opened Results
  import opened Values
  import opened Exprs
  import Render

  datatype Stage =
    | SeqScan(table: string)
    | Filter(pred: Expr)
    | Project(exprs: seq<Expr>)
    | Sort(key: Expr)
    | SortReverse(key: Expr)
    | Skip(count: int)
    | Take(count: int)
    | GroupAggregate(groupKey: Option<Expr>, aggs: seq<Expr>)
    | Union(inputs: seq<seq<Stage>>)
    | Concat(inputs: seq<seq<Stage>>)
    | PathsSet(path: Path, value: Expr)
    | PathsUnset(field: string)

  type Stream = seq<Stage>

  /** A compiled statement: its stream and whether it can run read-only. */
  datatype StreamStmt = StreamStmt(stream: Stream, readOnly: bool)

  /** The two set operators that join SELECT cores. */
  datatype SetOp = UnionAll | UnionDistinct

  /** The one-stage stream of a multi-input node over `inputs`. */
  function Node(op: SetOp, inputs: seq<Stream>): (s: Stream)
    ensures |s| == 1
    ensures op == UnionAll ==> s[0].Concat? && s[0].inputs == inputs
    ensures op == UnionDistinct ==> s[0].Union? && s[0].inputs == inputs
  {
    match op
    case UnionAll => [Concat(inputs)]
    case UnionDistinct => [Union(inputs)]
  }

  /** The debug form of the two path operators; other stages are not rendered. */
  function PathStageString(st: Stage): string
    requires st.PathsSet? || st.PathsUnset?
  {
    match st
    case PathsSet(p, e) => "paths.Set(" + Render.PathString(p) + ", " + Render.ExprString(e) + ")"
    case PathsUnset(f) => "paths.Unset(" + f + ")"
  }
}
