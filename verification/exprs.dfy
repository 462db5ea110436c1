/** The scalar expression tree the compiler inspects without evaluating it. */
module Exprs {
  import opened Values

  /**
   * One node of an expression. `Aggregate` is the aggregator-builder
   * capability (COUNT, SUM, ...); `NextValueFor` is the node that needs
   * write access. `COUNT(*)` is `Aggregate("COUNT", true, [])`: the source
   * keeps its star as a flag, not as a wildcard child.
   */
  datatype Expr =
    | Lit(value: Value)
    | PathRef(path: Path)
    | Wildcard
    | Named(name: string, inner: Expr)
    | Unary(uop: string, operand: Expr)
    | Binary(bop: string, left: Expr, right: Expr)
    | Call(fname: string, args: seq<Expr>)
    | List(items: seq<Expr>)
    | Aggregate(aname: string, star: bool, args: seq<Expr>)
    | NextValueFor(sequence: string)

  /** The node kinds the compiler looks for while walking a tree. */
  datatype Kind = PathKind | WildcardKind | NextValueForKind

  predicate IsKind(e: Expr, k: Kind) {
    match k
    case PathKind => e.PathRef?
    case WildcardKind => e.Wildcard?
    case NextValueForKind => e.NextValueFor?
  }

  /** True iff some node of `e`, at any depth, has kind `k`. */
  predicate Contains(e: Expr, k: Kind)
    decreases e
  {
    IsKind(e, k) ||
    match e
    case Named(_, x) => Contains(x, k)
    case Unary(_, x) => Contains(x, k)
    case Binary(_, l, r) => Contains(l, k) || Contains(r, k)
    case Call(_, args) => exists i :: 0 <= i < |args| && Contains(args[i], k)
    case List(items) => exists i :: 0 <= i < |items| && Contains(items[i], k)
    case Aggregate(_, _, args) => exists i :: 0 <= i < |args| && Contains(args[i], k)
    case _ => false
  }

  /** True iff some expression of `es` contains a node of kind `k`. */
  predicate AnyContains(es: seq<Expr>, k: Kind) {
    exists i :: 0 <= i < |es| && Contains(es[i], k)
  }

  /** A projection whose top-level inner expression is an aggregator. */
  predicate IsAggregateProjection(p: Expr) {
    p.Named? && p.inner.Aggregate?
  }
}
