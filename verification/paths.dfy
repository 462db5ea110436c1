/**
 * The path operators as pure per-document transforms: Set writes a value
 * at a path inside each document, Unset removes a top-level field.
 */
module Paths {
  import opened Results
  import opened Values
  import opened Errors

  /** What writing at a path does: a new value, a step that finds nothing, or a step into the wrong kind. */
  datatype SetOutcome = Updated(value: Value) | Missing | Mismatch

  /**
   * Writes `nv` at `p` inside `v`. A field that exists is replaced in place;
   * a missing last field is appended; an array element must already exist.
   * A missing intermediate field or an index past the end is Missing; a step
   * into a value that is not the container the segment needs is Mismatch.
   */
  function SetAt(v: Value, p: Path, nv: Value): (r: SetOutcome)
    ensures r.Updated? && p != [] ==> TypeOf(r.value) == TypeOf(v)
    ensures p != [] && p[0].Index? && v.Array? && p[0].index >= |v.items| ==> r == Missing
    ensures p != [] && p[0].Index? && v.Array? && r.Updated? ==>
      |r.value.items| == |v.items| &&
      forall j :: 0 <= j < |v.items| && j != p[0].index ==> r.value.items[j] == v.items[j]
    ensures p != [] && p[0].Key? && v.Doc? && r.Updated? ==>
      |v.fields| <= |r.value.fields| <= |v.fields| + 1 &&
      (forall j :: 0 <= j < |v.fields| ==> r.value.fields[j].name == v.fields[j].name) &&
      (forall j :: 0 <= j < |v.fields| && v.fields[j].name != p[0].name ==> r.value.fields[j] == v.fields[j])
    ensures p != [] && p[0].Key? && v.Doc? && r.Updated? ==>
      (|r.value.fields| == |v.fields| <==> FieldIndex(v.fields, p[0].name).Some?)
    decreases |p|
  {
    if p == [] then Updated(nv)
    else match p[0]
      case Key(name) =>
        if !v.Doc? then Mismatch
        else (match FieldIndex(v.fields, name)
          case None => if |p| == 1 then Updated(Doc(v.fields + [Field(name, nv)])) else Missing
          case Some(i) =>
            match SetAt(v.fields[i].value, p[1..], nv)
            case Updated(x) => Updated(Doc(v.fields[i := Field(name, x)]))
            case Missing => Missing
            case Mismatch => Mismatch)
      case Index(k) =>
        if !v.Array? then Mismatch
        else if k >= |v.items| then Missing
        else match SetAt(v.items[k], p[1..], nv)
          case Updated(x) => Updated(Array(v.items[k := x]))
          case Missing => Missing
          case Mismatch => Mismatch
  }

  /** Replacing the first field called `name` keeps it the first such field. */
  lemma FieldIndexAfterReplace(fs: seq<Field>, i: nat, name: string, x: Value)
    requires FieldIndex(fs, name) == Some(i)
    ensures FieldIndex(fs[i := Field(name, x)], name) == Some(i)
  {
    var gs := fs[i := Field(name, x)];
    assert gs[i].name == name;
    assert forall j :: 0 <= j < i ==> gs[j].name != name;
  }

  /** An appended field is found where it was appended when no earlier field shares its name. */
  lemma FieldIndexAfterAppend(fs: seq<Field>, name: string, x: Value)
    requires FieldIndex(fs, name) == None
    ensures FieldIndex(fs + [Field(name, x)], name) == Some(|fs|)
  {
    var gs := fs + [Field(name, x)];
    assert forall j :: 0 <= j < |fs| ==> gs[j].name != name;
    assert gs[|fs|].name == name;
  }

  /** Reading a path just written gives the value written. */
  lemma {:induction false} SetThenGet(v: Value, p: Path, nv: Value)
    requires SetAt(v, p, nv).Updated?
    ensures Get(SetAt(v, p, nv).value, p) == Some(nv)
    decreases |p|
  {
    if p != [] {
      var w := SetAt(v, p, nv).value;
      match p[0]
      case Key(name) =>
        match FieldIndex(v.fields, name) {
          case None =>
            FieldIndexAfterAppend(v.fields, name, nv);
            assert w.fields[|v.fields|].value == nv;
            assert p[1..] == [];
          case Some(i) =>
            SetThenGet(v.fields[i].value, p[1..], nv);
            FieldIndexAfterReplace(v.fields, i, name, SetAt(v.fields[i].value, p[1..], nv).value);
        }
      case Index(k) =>
        SetThenGet(v.items[k], p[1..], nv);
    }
  }

  /** Writing the same value at the same path a second time changes nothing. */
  lemma {:induction false} SetIdempotent(v: Value, p: Path, nv: Value)
    requires SetAt(v, p, nv).Updated?
    ensures SetAt(SetAt(v, p, nv).value, p, nv) == SetAt(v, p, nv)
    decreases |p|
  {
    if p != [] {
      var w := SetAt(v, p, nv).value;
      match p[0]
      case Key(name) =>
        match FieldIndex(v.fields, name) {
          case None =>
            FieldIndexAfterAppend(v.fields, name, nv);
            assert p[1..] == [];
            assert w.fields[|v.fields| := Field(name, nv)] == w.fields;
          case Some(i) =>
            var x := SetAt(v.fields[i].value, p[1..], nv).value;
            SetIdempotent(v.fields[i].value, p[1..], nv);
            FieldIndexAfterReplace(v.fields, i, name, x);
            assert w.fields[i := Field(name, x)] == w.fields;
        }
      case Index(k) =>
        var x := SetAt(v.items[k], p[1..], nv).value;
        SetIdempotent(v.items[k], p[1..], nv);
        assert w.items[k := x] == w.items;
    }
  }

  /** Writing where a value already exists succeeds: an existing field or element is replaced. */
  lemma {:induction false} SetExisting(v: Value, p: Path, nv: Value)
    requires Get(v, p).Some?
    ensures SetAt(v, p, nv).Updated?
    decreases |p|
  {
    if p != [] {
      match p[0]
      case Key(n) =>
        SetExisting(v.fields[FieldIndex(v.fields, n).value].value, p[1..], nv);
      case Index(k) =>
        SetExisting(v.items[k], p[1..], nv);
    }
  }

  /**
   * Writing a field into a document the path reaches succeeds, whether the
   * field exists or not: a missing last field is created.
   */
  lemma {:induction false} SetNewLastField(v: Value, p: Path, nv: Value)
    requires p != [] && p[|p| - 1].Key?
    requires Get(v, p[..|p| - 1]).Some? && Get(v, p[..|p| - 1]).value.Doc?
    ensures SetAt(v, p, nv).Updated?
    decreases |p|
  {
    if |p| == 1 {
      assert p[..0] == [];
    } else {
      var q := p[..|p| - 1];
      assert q[1..] == p[1..][..|p[1..]| - 1];
      assert p[1..][|p[1..]| - 1] == p[|p| - 1];
      match p[0]
      case Key(n) =>
        SetNewLastField(v.fields[FieldIndex(v.fields, n).value].value, p[1..], nv);
      case Index(k) =>
        SetNewLastField(v.items[k], p[1..], nv);
    }
  }

  /** Lookups of any name other than the appended ones are unchanged when the existing names are kept. */
  lemma FieldIndexSameNames(fs: seq<Field>, gs: seq<Field>, m: string)
    requires |fs| <= |gs|
    requires forall j :: 0 <= j < |fs| ==> gs[j].name == fs[j].name
    requires forall j :: |fs| <= j < |gs| ==> gs[j].name != m
    ensures FieldIndex(gs, m) == FieldIndex(fs, m)
  {
    if FieldIndex(fs, m).Some? {
      assert gs[FieldIndex(fs, m).value].name == m;
    }
  }

  /**
   * An index past the end anywhere along the path finds nothing: when the
   * prefix before segment `k` leads to an array too short for it, the
   * write is Missing.
   */
  lemma {:induction false} SetPastEndDeep(v: Value, p: Path, nv: Value, k: nat)
    requires k < |p| && p[k].Index?
    requires Get(v, p[..k]).Some? && Get(v, p[..k]).value.Array?
    requires p[k].index >= |Get(v, p[..k]).value.items|
    ensures SetAt(v, p, nv) == Missing
    decreases k
  {
    if k > 0 {
      assert p[..k][1..] == p[1..][..k - 1];
      assert p[1..][k - 1] == p[k];
      match p[0]
      case Key(name) =>
        var i := FieldIndex(v.fields, name).value;
        SetPastEndDeep(v.fields[i].value, p[1..], nv, k - 1);
      case Index(a) =>
        SetPastEndDeep(v.items[a], p[1..], nv, k - 1);
    }
  }

  /**
   * A document whose fields keep their names and, apart from `n`, their
   * values, and which gains at most a field called `n`, reads the same at
   * every path that does not start at `n`.
   */
  lemma FieldsFrame(fs: seq<Field>, gs: seq<Field>, n: string, q: Path)
    requires |fs| <= |gs| <= |fs| + 1
    requires forall j :: 0 <= j < |fs| ==> gs[j].name == fs[j].name
    requires forall j :: 0 <= j < |fs| && fs[j].name != n ==> gs[j] == fs[j]
    requires |gs| > |fs| ==> gs[|fs|].name == n
    requires q != [] && q[0] != Key(n)
    ensures Get(Doc(gs), q) == Get(Doc(fs), q)
  {
    if q[0].Key? {
      FieldIndexSameNames(fs, gs, q[0].name);
    }
  }

  /** The frame of one write into a document: any other first segment reads the same before and after. */
  lemma SetFrameDoc(v: Value, p: Path, nv: Value, q: Path)
    requires v.Doc? && p != [] && p[0].Key? && SetAt(v, p, nv).Updated?
    requires q != [] && q[0] != p[0]
    ensures Get(SetAt(v, p, nv).value, q) == Get(v, q)
  {
    var n := p[0].name;
    var w := SetAt(v, p, nv).value;
    if FieldIndex(v.fields, n).None? {
      assert w == Doc(v.fields + [Field(n, nv)]);
    } else {
      assert w == Doc(v.fields[FieldIndex(v.fields, n).value := Field(n, SetAt(v.fields[FieldIndex(v.fields, n).value].value, p[1..], nv).value)]);
    }
    FieldsFrame(v.fields, w.fields, n, q);
  }

  /** The frame of one write into an array: any other first segment reads the same before and after. */
  lemma SetFrameArray(v: Value, p: Path, nv: Value, q: Path)
    requires v.Array? && p != [] && p[0].Index? && SetAt(v, p, nv).Updated?
    requires q != [] && q[0] != p[0]
    ensures Get(SetAt(v, p, nv).value, q) == Get(v, q)
  {
    var w := SetAt(v, p, nv).value;
    assert w.Array? && |w.items| == |v.items|;
  }

  /**
   * Writing at `p` leaves every other path alone: a path that leaves `p`
   * at segment `k` reads the same before and after the write.
   */
  lemma {:induction false} SetFrame(v: Value, p: Path, nv: Value, q: Path, k: nat)
    requires SetAt(v, p, nv).Updated?
    requires k < |p| && k < |q| && p[..k] == q[..k] && p[k] != q[k]
    ensures Get(SetAt(v, p, nv).value, q) == Get(v, q)
    decreases k
  {
    if k == 0 {
      if p[0].Key? {
        SetFrameDoc(v, p, nv, q);
      } else {
        SetFrameArray(v, p, nv, q);
      }
    } else {
      assert p[0] == p[..k][0] == q[..k][0] == q[0];
      assert p[1..][..k - 1] == q[1..][..k - 1];
      assert p[1..][k - 1] == p[k] && q[1..][k - 1] == q[k];
      var w := SetAt(v, p, nv).value;
      match p[0]
      case Key(n) =>
        var i := FieldIndex(v.fields, n).value;
        var x := SetAt(v.fields[i].value, p[1..], nv).value;
        SetFrame(v.fields[i].value, p[1..], nv, q[1..], k - 1);
        FieldIndexAfterReplace(v.fields, i, n, x);
      case Index(a) =>
        SetFrame(v.items[a], p[1..], nv, q[1..], k - 1);
    }
  }

  /** What Set does to one document: the document to emit, none, or an error that aborts the run. */
  function SetOne(d: Document, p: Path, eval: Document -> Result<Value, Error>): (r: Result<Option<Document>, Error>)
    requires p != []
    ensures eval(d).Err? ==> r == Err(eval(d).error)
    ensures eval(d).Ok? ==>
      match SetAt(Doc(d), p, eval(d).value)
      case Updated(w) => r == Ok(Some(w.fields))
      case Missing => r == Ok(None)
      case Mismatch => r == Err(PathMismatch)
  {
    match eval(d)
    case Err(e) => Err(e)
    case Ok(nv) =>
      match SetAt(Doc(d), p, nv)
      case Updated(w) => Ok(Some(w.fields))
      case Missing => Ok(None)
      case Mismatch => Err(PathMismatch)
  }

  function Emitted(o: Option<Document>): seq<Document> {
    if o.Some? then [o.value] else []
  }

  /**
   * The Set operator over a stream of documents, in input order. The value
   * expression is evaluated against each document through `eval`.
   */
  function SetEach(docs: seq<Document>, p: Path, eval: Document -> Result<Value, Error>): (r: Result<seq<Document>, Error>)
    requires p != []
    ensures r.Ok? <==> forall i :: 0 <= i < |docs| ==> SetOne(docs[i], p, eval).Ok?
    ensures r.Ok? ==> |r.value| <= |docs|
    ensures |docs| == 1 ==>
      r == (match SetOne(docs[0], p, eval) case Err(e) => Err(e) case Ok(o) => Ok(Emitted(o)))
    decreases |docs|
  {
    if |docs| == 0 then Ok([])
    else
      match SetOne(docs[0], p, eval)
      case Err(e) => Err(e)
      case Ok(o) =>
        match SetEach(docs[1..], p, eval)
        case Err(e) => Err(e)
        case Ok(rest) =>
          assert Emitted(o) + [] == Emitted(o);
          Ok(Emitted(o) + rest)
  }

  /** The outcome of running Set over `a` and then over `b`, as one run. */
  function Then(ra: Result<seq<Document>, Error>, rb: Result<seq<Document>, Error>): Result<seq<Document>, Error> {
    match ra
    case Err(e) => Err(e)
    case Ok(xa) =>
      match rb
      case Err(e) => Err(e)
      case Ok(xb) => Ok(xa + xb)
  }

  /**
   * Set keeps no state across documents: running it over `a + b` is running
   * it over `a`, then over `b`, with the outputs in the same order.
   */
  lemma {:induction false} SetEachAppend(a: seq<Document>, b: seq<Document>, p: Path, eval: Document -> Result<Value, Error>)
    requires p != []
    ensures SetEach(a + b, p, eval) == Then(SetEach(a, p, eval), SetEach(b, p, eval))
    decreases |a|
  {
    if |a| == 0 {
      assert a + b == b;
      if SetEach(b, p, eval).Ok? {
        assert [] + SetEach(b, p, eval).value == SetEach(b, p, eval).value;
      }
    } else {
      assert (a + b)[0] == a[0];
      assert (a + b)[1..] == a[1..] + b;
      SetEachAppend(a[1..], b, p, eval);
      match SetOne(a[0], p, eval) {
        case Err(e) =>
        case Ok(o) =>
          match SetEach(a[1..], p, eval) {
            case Err(e) =>
            case Ok(xa) =>
              match SetEach(b, p, eval) {
                case Err(e) =>
                case Ok(xb) =>
                  assert Emitted(o) + (xa + xb) == (Emitted(o) + xa) + xb;
              }
          }
      }
    }
  }

  /** Removes the first field called `name`; a document without it passes unchanged. */
  function Unset(d: Document, name: string): (r: Document)
    ensures GetField(d, name).None? ==> r == d
    ensures GetField(d, name).Some? ==> |r| == |d| - 1
    ensures forall n :: n != name ==> GetField(r, n) == GetField(d, n)
    ensures UniqueNames(d) ==> UniqueNames(r) && GetField(r, name).None?
    ensures FieldIndex(d, name).Some? ==>
      forall j :: 0 <= j < |r| ==> r[j] == d[if j < FieldIndex(d, name).value then j else j + 1]
  {
    match FieldIndex(d, name)
    case None => d
    case Some(i) =>
      var r := d[..i] + d[i + 1..];
      RemoveShifts(d, i, r);
      RemoveUnique(d, i, r);
      assert forall n :: n != name ==> GetField(r, n) == GetField(d, n) by {
        forall n | n != name
          ensures GetField(r, n) == GetField(d, n)
        {
          UnsetOther(d, i, name, n);
        }
      }
      r
  }

  /** Removing the field at `i` shifts every later field down by one. */
  lemma RemoveShifts(d: Document, i: nat, r: Document)
    requires i < |d| && r == d[..i] + d[i + 1..]
    ensures |r| == |d| - 1
    ensures forall j :: 0 <= j < |r| ==> r[j] == d[if j < i then j else j + 1]
  {
  }

  /** Removing a field from a document with unique names leaves unique names, without the removed one. */
  lemma RemoveUnique(d: Document, i: nat, r: Document)
    requires i < |d| && r == d[..i] + d[i + 1..]
    ensures UniqueNames(d) ==> UniqueNames(r) && GetField(r, d[i].name).None?
  {
    if UniqueNames(d) {
      RemoveShifts(d, i, r);
      forall a, b | 0 <= a < b < |r|
        ensures r[a].name != r[b].name
      {
        assert r[a] == d[if a < i then a else a + 1];
        assert r[b] == d[if b < i then b else b + 1];
      }
      forall j | 0 <= j < |r|
        ensures r[j].name != d[i].name
      {
        assert r[j] == d[if j < i then j else j + 1];
      }
    }
  }

  /** A field called `name` with none before it is the first. */
  lemma FirstAt(fs: seq<Field>, name: string, k: nat)
    requires k < |fs| && fs[k].name == name
    requires forall j :: 0 <= j < k ==> fs[j].name != name
    ensures FieldIndex(fs, name) == Some(k)
  {
  }

  /** Removing a field called `name` does not move what other names find. */
  lemma UnsetOther(d: Document, i: nat, name: string, n: string)
    requires i < |d| && d[i].name == name && n != name
    ensures GetField(d[..i] + d[i + 1..], n) == GetField(d, n)
  {
    var r := d[..i] + d[i + 1..];
    RemoveShifts(d, i, r);
    match FieldIndex(d, n) {
      case None =>
        assert FieldIndex(r, n) == None by {
          forall j | 0 <= j < |r|
            ensures r[j].name != n
          {
            assert r[j] == d[if j < i then j else j + 1];
          }
        }
      case Some(k) =>
        var k' := if k < i then k else k - 1;
        assert r[k'] == d[k];
        forall j | 0 <= j < k'
          ensures r[j].name != n
        {
          assert r[j] == d[if j < i then j else j + 1];
        }
        FirstAt(r, n, k');
    }
  }

  /** Unset twice is Unset once, for documents with unique field names. */
  lemma UnsetIdempotent(d: Document, name: string)
    requires UniqueNames(d)
    ensures Unset(Unset(d, name), name) == Unset(d, name)
  {
  }

  /** The Unset operator over a stream of documents: one output per input, in order. */
  function UnsetEach(docs: seq<Document>, name: string): (r: seq<Document>)
    ensures |r| == |docs|
    ensures forall i :: 0 <= i < |docs| ==> r[i] == Unset(docs[i], name)
  {
    seq(|docs|, i requires 0 <= i < |docs| => Unset(docs[i], name))
  }
}
