/**
 * The documents the Set and Unset operators' tests expect, and the text
 * form of both operators.
 */
module PathsCases {
  import opened Results
  import opened Values
  import opened Exprs
  import opened Errors
  import opened Streams
  import opened Paths
  import Render

  /** The constant value expression `10`, whatever the document. */
  function Ten(d: Document): Result<Value, Error> {
    Ok(Int(10))
  }

  /** Set a[0].b = 10 on {"a": [{}]} gives {"a": [{"b": 10}]}. */
  lemma SetIntoEmptyDocInArray()
    ensures SetEach([[Field("a", Array([Doc([])]))]], [Key("a"), Index(0), Key("b")], Ten) ==
            Ok([[Field("a", Array([Doc([Field("b", Int(10))])]))]])
  {
    var p := [Key("a"), Index(0), Key("b")];
    var b := Doc([Field("b", Int(10))]);
    assert [Key("b")][1..] == [];
    assert FieldIndex([], "b") == None;
    assert SetAt(Doc([]), [Key("b")], Int(10)) == Updated(b);
    assert p[1..] == [Index(0), Key("b")];
    assert p[1..][1..] == [Key("b")];
    assert [Doc([])][0 := b] == [b];
    assert SetAt(Array([Doc([])]), p[1..], Int(10)) == Updated(Array([b]));
    var d := [Field("a", Array([Doc([])]))];
    assert FieldIndex(d, "a") == Some(0);
    assert d[0 := Field("a", Array([b]))] == [Field("a", Array([b]))];
    assert SetAt(Doc(d), p, Int(10)) == Updated(Doc([Field("a", Array([b]))]));
    assert SetOne(d, p, Ten) == Ok(Some([Field("a", Array([b]))]));
    assert [d][1..] == [];
    assert SetEach([], p, Ten) == Ok([]);
    assert Emitted(Some([Field("a", Array([b]))])) + [] == [[Field("a", Array([b]))]];
  }

  /** Set a[2] = 10 on {"a": [1]}: there is no element 2, so the document is dropped. */
  lemma SetPastEndMissing()
    ensures SetOne([Field("a", Array([Int(1)]))], [Key("a"), Index(2)], Ten) == Ok(None)
  {
    var p := [Key("a"), Index(2)];
    var d := [Field("a", Array([Int(1)]))];
    assert p[1..] == [Index(2)];
    assert FieldIndex(d, "a") == Some(0);
    assert SetAt(Array([Int(1)]), p[1..], Int(10)) == Missing;
  }

  /** Set a[2] = 10 on {"a": [1, 2, 3]} replaces the third element. */
  lemma SetReplacesElement()
    ensures SetOne([Field("a", Array([Int(1), Int(2), Int(3)]))], [Key("a"), Index(2)], Ten) ==
            Ok(Some([Field("a", Array([Int(1), Int(2), Int(10)]))]))
  {
    var p := [Key("a"), Index(2)];
    var d := [Field("a", Array([Int(1), Int(2), Int(3)]))];
    var out := Array([Int(1), Int(2), Int(10)]);
    assert p[1..] == [Index(2)];
    assert [Index(2)][1..] == [];
    assert FieldIndex(d, "a") == Some(0);
    assert [Int(1), Int(2), Int(3)][2 := Int(10)] == [Int(1), Int(2), Int(10)];
    assert SetAt(Array([Int(1), Int(2), Int(3)]), p[1..], Int(10)) == Updated(out);
    assert d[0 := Field("a", out)] == [Field("a", out)];
    assert SetAt(Doc(d), p, Int(10)) == Updated(Doc([Field("a", out)]));
  }

  /**
   * Set a[2] = 10 over {"a": [1]} and {"a": [1, 2, 3]}: the first is
   * dropped, the second becomes {"a": [1, 2, 10]}.
   */
  lemma SetPastEndDrops()
    ensures SetEach([[Field("a", Array([Int(1)]))], [Field("a", Array([Int(1), Int(2), Int(3)]))]], [Key("a"), Index(2)], Ten) ==
            Ok([[Field("a", Array([Int(1), Int(2), Int(10)]))]])
  {
    var p := [Key("a"), Index(2)];
    var d1 := [Field("a", Array([Int(1)]))];
    var d2 := [Field("a", Array([Int(1), Int(2), Int(3)]))];
    var out := [Field("a", Array([Int(1), Int(2), Int(10)]))];
    SetPastEndMissing();
    SetReplacesElement();
    var docs := [d1, d2];
    assert docs[1..] == [d2];
    assert [d2][1..] == [];
    assert SetEach([], p, Ten) == Ok([]);
    assert SetOne([d2][0], p, Ten) == Ok(Some(out));
    assert Emitted(Some(out)) + [] == [out];
    assert SetEach([d2], p, Ten) == Ok([out]);
    assert SetOne(docs[0], p, Ten) == Ok(None);
    assert Emitted(None) + [out] == [out];
  }

  /** Unset a on {"a": 10, "b": 20} gives {"b": 20}. */
  lemma UnsetRemovesField()
    ensures UnsetEach([[Field("a", Int(10)), Field("b", Int(20))]], "a") == [[Field("b", Int(20))]]
  {
    var d := [Field("a", Int(10)), Field("b", Int(20))];
    assert FieldIndex(d, "a") == Some(0);
    assert d[..0] + d[1..] == [Field("b", Int(20))];
    assert Unset(d, "a") == [Field("b", Int(20))];
  }

  /** `a.b` renders with a dot between the fields. */
  lemma RenderAB()
    ensures Render.PathString([Key("a"), Key("b")]) == "a.b"
  {
    var p := [Key("a"), Key("b")];
    assert p[..1] == [Key("a")];
    assert [Key("a")][..0] == [];
    assert Render.PathString([Key("a")]) == "a";
  }

  /** The text form of Set names the path and the value expression. */
  lemma SetString()
    ensures PathStageString(PathsSet([Key("a"), Key("b")], Lit(Int(1)))) == "paths.Set(a.b, 1)"
  {
    RenderAB();
    assert Render.DigitChar(1) == '1';
    assert Render.ExprString(Lit(Int(1))) == "1";
  }

  /** The text form of Unset names the field. */
  lemma UnsetString()
    ensures PathStageString(PathsUnset("a")) == "paths.Unset(a)"
  {
  }
}
