/** Documents, values and the paths that address locations inside them. */
module Values {
  import opened Results

  /** A document value. Floating-point doubles and blobs are not modelled. */
  datatype Value =
    | Null
    | Bool(b: bool)
    | Int(i: int)
    | Text(s: string)
    | Array(items: seq<Value>)
    | Doc(fields: seq<Field>)

  /** One entry of a document: its fields are kept in insertion order. */
  datatype Field = Field(name: string, value: Value)

  /** A document: its fields in insertion order. */
  type Document = seq<Field>

  /** The type tag that error messages report. */
  datatype ValueType = NullType | BoolType | IntegerType | TextType | ArrayType | DocumentType

  function TypeOf(v: Value): ValueType {
    match v
    case Null => NullType
    case Bool(_) => BoolType
    case Int(_) => IntegerType
    case Text(_) => TextType
    case Array(_) => ArrayType
    case Doc(_) => DocumentType
  }

  /** Only integers are numbers once doubles are left out. */
  predicate IsNumber(v: Value) {
    v.Int?
  }

  /** A path segment: descend into a document field or an array element. */
  datatype Segment = Key(name: string) | Index(index: nat)

  type Path = seq<Segment>

  /** Field names of a document are unique. */
  predicate UniqueNames(fs: seq<Field>) {
    forall i, j :: 0 <= i < j < |fs| ==> fs[i].name != fs[j].name
  }

  /** Position of the first field called `name`, if any. */
  function FieldIndex(fs: seq<Field>, name: string): (r: Option<nat>)
    ensures r.Some? ==> r.value < |fs| && fs[r.value].name == name
    ensures r.Some? ==> forall j :: 0 <= j < r.value ==> fs[j].name != name
    ensures r.None? <==> forall j :: 0 <= j < |fs| ==> fs[j].name != name
  {
    if |fs| == 0 then None
    else if fs[0].name == name then Some(0)
    else match FieldIndex(fs[1..], name)
      case None => None
      case Some(k) => Some(k + 1)
  }

  /** The value of the field called `name`, if any. */
  function GetField(fs: seq<Field>, name: string): Option<Value> {
    match FieldIndex(fs, name)
    case None => None
    case Some(i) => Some(fs[i].value)
  }

  /** The value found by following `p` from `v`, if every step exists. */
  function Get(v: Value, p: Path): Option<Value>
    decreases |p|
  {
    if p == [] then Some(v)
    else match p[0]
      case Key(name) =>
        if !v.Doc? then None
        else (match FieldIndex(v.fields, name)
          case None => None
          case Some(i) => Get(v.fields[i].value, p[1..]))
      case Index(k) =>
        if !v.Array? || k >= |v.items| then None
        else Get(v.items[k], p[1..])
  }
}
