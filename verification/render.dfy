/**
 * The canonical text forms of paths, values and expressions, used by the
 * operators' debug strings and by the GROUP BY rewrite. String escaping
 * and quoting of unusual field names are not modelled.
 */
module Render {
  import opened Values
  import opened Exprs

  function DigitChar(d: nat): char
    requires d < 10
  {
    "0123456789"[d]
  }

  /** Decimal digits of a natural number, most significant first. */
  function NatString(n: nat): (s: string)
    ensures |s| >= 1
    ensures forall i :: 0 <= i < |s| ==> '0' <= s[i] <= '9'
    ensures n >= 10 ==> s[0] != '0'
    decreases n
  {
    if n < 10 then [DigitChar(n)] else NatString(n / 10) + [DigitChar(n % 10)]
  }

  function IntString(i: int): string {
    if i < 0 then "-" + NatString(-i) else NatString(i)
  }

  /** Joins the parts with `sep` between consecutive parts. */
  function Join(parts: seq<string>, sep: string): string {
    if |parts| == 0 then ""
    else if |parts| == 1 then parts[0]
    else parts[0] + sep + Join(parts[1..], sep)
  }

  function SegmentString(s: Segment, first: bool): string {
    match s
    case Key(name) => if first then name else "." + name
    case Index(k) => "[" + NatString(k) + "]"
  }

  /** `a.b[0].c`: fields joined by dots, indexes in brackets. */
  function PathString(p: Path): string {
    if |p| == 0 then ""
    else PathString(p[..|p| - 1]) + SegmentString(p[|p| - 1], |p| == 1)
  }

  function ValueString(v: Value): string
    decreases v
  {
    match v
    case Null => "NULL"
    case Bool(b) => if b then "true" else "false"
    case Int(i) => IntString(i)
    case Text(s) => "\"" + s + "\""
    case Array(items) =>
      "[" + Join(seq(|items|, k requires 0 <= k < |items| => ValueString(items[k])), ", ") + "]"
    case Doc(fields) =>
      "{" + Join(seq(|fields|, k requires 0 <= k < |fields| =>
                   "\"" + fields[k].name + "\": " + ValueString(fields[k].value)), ", ") + "}"
  }

  function ArgsString(args: seq<Expr>): string
    decreases args, 0
  {
    Join(seq(|args|, k requires 0 <= k < |args| => ExprString(args[k])), ", ")
  }

  function ExprString(e: Expr): string
    decreases e, 1
  {
    match e
    case Lit(v) => ValueString(v)
    case PathRef(p) => PathString(p)
    case Wildcard => "*"
    case Named(name, _) => name
    case Unary(op, x) => op + ExprString(x)
    case Binary(op, l, r) => ExprString(l) + " " + op + " " + ExprString(r)
    case Call(f, args) => f + "(" + ArgsString(args) + ")"
    case List(items) => "[" + ArgsString(items) + "]"
    case Aggregate(f, star, args) => f + "(" + (if star then "*" else ArgsString(args)) + ")"
    case NextValueFor(name) => "NEXT VALUE FOR " + name
  }
}
