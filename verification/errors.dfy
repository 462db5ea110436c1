/** The error kinds a compilation or a path operator can return. */
module Errors {
  import opened Values
  import opened Exprs

  datatype Error =
    /** A GROUP BY projection that is neither an aggregator nor the key. */
    | NotInGroupBy(field: Expr)
    /** A query without FROM that references a field or `*`. */
    | NoTablesSpecified
    /** OFFSET evaluated to a value that is not a number. */
    | OffsetNotNumber(got: ValueType)
    /** LIMIT evaluated to a value that is not a number. */
    | LimitNotNumber(got: ValueType)
    /** An error raised by the expression evaluator, passed through. */
    | EvalFailed(reason: string)
    /** A path step reached a value that is not the container it needs. */
    | PathMismatch
}
