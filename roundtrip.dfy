/**
  Serializing and decoding again. objectToString (OkJson.java:1141-1145) writes every scalar
  value between quotes, and writes no separator after a nested object (OkJson.java:1161-1179);
  stringToObject reads a quoted value as a STRING token. So decoding what was encoded does not
  give the object back: an integer field comes back unset, and a member after a nested object
  stops the decode.
 */
module RoundTrip {
  import opened Common
  import opened Tokens
  import opened Model
  import opened Decode
  import opened Encode

  /** The decimal text the serializer writes for an integer field is read back as that integer
      when it arrives as an INTEGER token. Between quotes it arrives as a STRING token, which an
      integer field ignores (or, for a primitive one under the strict policy, reports as a type
      mismatch). */
  lemma {:induction false} QuotedIntegerNotRead(k: Kind, v: int, boolValue: bool, hasSetter: bool, direct: bool, strict: bool)
    requires k.BoxedInt? || (k.PrimInt? && (k.width == W32 || k.width == W64))
    requires MinOf(k.width) <= v <= MaxOf(k.width)
    requires hasSetter || direct
    ensures PropertyAction(k, IntegerTok, IntToString(v), boolValue, hasSetter, direct, strict) == Write(Int(v))
    ensures PropertyAction(k, StringTok, IntToString(v), boolValue, hasSetter, direct, strict)
         == if k.PrimInt? && strict then Fail(PropertyTypeNotMatch) else Skip
  {
    ParseRendered(v, k.width);
  }

  // An Integer field n, written and read with direct access and the compact layout.
  const IntField := FieldDesc("n", BoxedInt(W32), false, false)
  const IntConfig := Config(false, true, true, map["P" := [IntField]])
  const IntJson := "{\"n\":\"1\"}"

  /** An Integer field holding 1 encodes as {"n":"1"}, which decodes with status 0 into an
      object whose field n was never assigned. */
  lemma {:induction false} IntegerFieldLost(errorCode: int, lx: Lexer)
    ensures Serialize(IntConfig, Obj("P", map["n" := Int(1)]), errorCode) == Rendered(Some(IntJson), errorCode)
    ensures Prepare(IntJson, IntConfig, lx, EmptyInstance("P"))
         == Decoded(0, lx.(offset := 9, tokenType := RightBrace, begin := 8, end := 8), Some(EmptyInstance("P")))
    ensures "n" !in Prepare(IntJson, IntConfig, lx, EmptyInstance("P")).result.value.fields
  {
    IntegerEncoded(errorCode);
    IntegerDecoded(IntJson, IntConfig, lx);
  }

  lemma {:induction false} IntegerEncoded(errorCode: int)
    ensures Serialize(IntConfig, Obj("P", map["n" := Int(1)]), errorCode) == Rendered(Some(IntJson), errorCode)
  {
    var o := Obj("P", map["n" := Int(1)]);
    FlatSerialize(IntConfig, o, errorCode);
    assert Render(FieldValue(o, IntField)) == "1";
    assert FieldsOf(IntConfig.table, "P") == [IntField];
    assert CompactText(o, [IntField], 0) == "\"n\":\"1\"";
    assert "{" + "\"n\":\"1\"" + "}" == IntJson;
  }

  lemma {:induction false} IntegerDecoded(json: string, cfg: Config, lx: Lexer)
    requires json == IntJson && cfg == IntConfig
    ensures Prepare(json, cfg, lx, EmptyInstance("P"))
         == Decoded(0, lx.(offset := 9, tokenType := RightBrace, begin := 8, end := 8), Some(EmptyInstance("P")))
  {
    OpensWithBrace(json, cfg, lx, EmptyInstance("P"));
    var l1 := lx.(offset := 1, tokenType := LeftBrace, begin := 0, end := 0);
    IntegerName(json, cfg, l1);
    IntegerValueSkipped(json, cfg, l1.(offset := 5, tokenType := Colon, begin := 4, end := 4));
  }

  lemma {:induction false} IntegerName(json: string, cfg: Config, l1: Lexer)
    requires json == IntJson && cfg == IntConfig && l1.offset == 1
    ensures ObjectLoop(json, cfg, l1, Some(EmptyInstance("P")))
         == ValueStep(json, cfg, l1.(offset := 5, tokenType := Colon, begin := 4, end := 4), Some(EmptyInstance("P")), Some(IntField))
  {
    assert json[2 .. 3] == "n";
    assert FieldsOf(cfg.table, "P") == [IntField];
    DeclaredNameThenColon(json, cfg, l1, EmptyInstance("P"), IntField, 3);
  }

  /** The quoted value "1" reaches the Integer field as a STRING token and is passed over. */
  lemma {:induction false} IntegerValueSkipped(json: string, cfg: Config, l3: Lexer)
    requires json == IntJson && cfg == IntConfig && l3.offset == 5
    ensures ValueStep(json, cfg, l3, Some(EmptyInstance("P")), Some(IntField))
         == ObjResult(0, l3.(offset := 9, tokenType := RightBrace, begin := 8, end := 8), Some(EmptyInstance("P")))
  {
    var p := EmptyInstance("P");
    StringValueBound(json, cfg, l3, Some(p), Some(IntField), 7);
    var l4 := l3.(offset := 8, tokenType := StringTok, begin := 6, end := 6);
    assert ScalarValue(json, cfg, l4, Some(p), Some(IntField)) == AfterValue(json, cfg, l4, Some(p));
    ClosingBraceAfterValue(json, cfg, l4, Some(p));
  }

  // A class O with a nested C member c followed by a String member s; C has one String member x.
  const NestedField := FieldDesc("c", Nested("C"), false, false)
  const StringField := FieldDesc("s", StringKind, false, false)
  const InnerField := FieldDesc("x", StringKind, false, false)
  const NestedConfig := Config(false, true, true, map["O" := [NestedField, StringField], "C" := [InnerField]])
  const NestedJson := "{\"c\":{\"x\":\"a\"}\"s\":\"v\"}"

  /** An object whose nested member is followed by a string member encodes as
      {"c":{"x":"a"}"s":"v"}, with no ',' after the nested object; decoding that fails with
      EXPECT_COLON_AFTER_NAME on the name "s" and yields no object. */
  lemma {:induction false} MemberAfterNestedRejected(errorCode: int, lx: Lexer)
    ensures var child := Obj("C", map["x" := Str("a")]);
            Serialize(NestedConfig, Obj("O", map["c" := ObjV(child), "s" := Str("v")]), errorCode)
              == Rendered(Some(NestedJson), 0)
    ensures Prepare(NestedJson, NestedConfig, lx, EmptyInstance("O"))
         == Decoded(ExpectColonAfterName, lx.(offset := 17, tokenType := StringTok, begin := 15, end := 15), None)
  {
    NestedEncoded(errorCode);
    NestedDecoded(NestedJson, NestedConfig, lx);
  }

  lemma {:induction false} NestedEncoded(errorCode: int)
    ensures var child := Obj("C", map["x" := Str("a")]);
            Serialize(NestedConfig, Obj("O", map["c" := ObjV(child), "s" := Str("v")]), errorCode)
              == Rendered(Some(NestedJson), 0)
  {
    var child := Obj("C", map["x" := Str("a")]);
    NestedLayout(NestedConfig, Obj("O", map["c" := ObjV(child), "s" := Str("v")]), child, errorCode);
    NestedText();
  }

  lemma {:induction false} NestedLayout(cfg: Config, o: Obj, child: Obj, errorCode: int)
    requires cfg == NestedConfig && child == Obj("C", map["x" := Str("a")])
    requires o == Obj("O", map["c" := ObjV(child), "s" := Str("v")])
    ensures Serialize(cfg, o, errorCode)
         == Rendered(Some("{" + ("\"" + "c" + "\":{" + "\"x\":\"a\"" + "}" + ("\"" + "s" + "\":\"" + "v" + "\"")) + "}"), 0)
  {
    InnerEncoded(cfg, child);
    assert FieldsOf(cfg.table, "O") == [NestedField, StringField];
    NoCommaAfterNested(cfg, o, NestedField, StringField, child, errorCode);
    assert Render(FieldValue(o, StringField)) == "v";
  }

  lemma {:induction false} NestedText()
    ensures "{" + ("\"" + "c" + "\":{" + "\"x\":\"a\"" + "}" + ("\"" + "s" + "\":\"" + "v" + "\"")) + "}" == NestedJson
  {
  }

  lemma {:induction false} InnerEncoded(cfg: Config, child: Obj)
    requires cfg == NestedConfig && child == Obj("C", map["x" := Str("a")])
    ensures FieldsFrom(cfg, child, FieldsOf(cfg.table, "C"), 0, 2) == Ser(0, "\"x\":\"a\"", false)
  {
    assert FieldsOf(cfg.table, "C") == [InnerField];
    CompactLayout(cfg, child, [InnerField], 0, 2);
    assert CompactText(child, [InnerField], 0) == "\"x\":\"a\"";
  }

  lemma {:induction false} NestedDecoded(json: string, cfg: Config, lx: Lexer)
    requires json == NestedJson && cfg == NestedConfig
    ensures Prepare(json, cfg, lx, EmptyInstance("O"))
         == Decoded(ExpectColonAfterName, lx.(offset := 17, tokenType := StringTok, begin := 15, end := 15), None)
  {
    OpensWithBrace(json, cfg, lx, EmptyInstance("O"));
    var l1 := lx.(offset := 1, tokenType := LeftBrace, begin := 0, end := 0);
    OuterName(json, cfg, l1);
    NestedValueThenName(json, cfg, l1.(offset := 5, tokenType := Colon, begin := 4, end := 4));
  }

  lemma {:induction false} OuterName(json: string, cfg: Config, l1: Lexer)
    requires json == NestedJson && cfg == NestedConfig && l1.offset == 1
    ensures ObjectLoop(json, cfg, l1, Some(EmptyInstance("O")))
         == ValueStep(json, cfg, l1.(offset := 5, tokenType := Colon, begin := 4, end := 4), Some(EmptyInstance("O")), Some(NestedField))
  {
    assert json[2 .. 3] == "c";
    assert FieldsOf(cfg.table, "O") == [NestedField, StringField];
    DeclaredNameThenColon(json, cfg, l1, EmptyInstance("O"), NestedField, 3);
  }

  /** After the nested object, the name "s" comes where ',' or '}' is expected. */
  lemma {:induction false} NestedValueThenName(json: string, cfg: Config, l3: Lexer)
    requires json == NestedJson && cfg == NestedConfig && l3.offset == 5
    ensures ValueStep(json, cfg, l3, Some(EmptyInstance("O")), Some(NestedField))
         == ObjResult(ExpectColonAfterName, l3.(offset := 17, tokenType := StringTok, begin := 15, end := 15),
                      Some(Assign(EmptyInstance("O"), "c", ObjV(Assign(EmptyInstance("C"), "x", Str("a"))))))
  {
    NestedValueStored(json, cfg, l3);
    var l8 := l3.(offset := 14, tokenType := RightBrace, begin := 13, end := 13);
    NameAfterValueRejected(json, cfg, l8, Some(Assign(EmptyInstance("O"), "c", ObjV(Assign(EmptyInstance("C"), "x", Str("a"))))), 16);
  }

  /** The nested object {"x":"a"} is decoded and stored into c; what follows it is read next. */
  lemma {:induction false} NestedValueStored(json: string, cfg: Config, l3: Lexer)
    requires json == NestedJson && cfg == NestedConfig && l3.offset == 5
    ensures ValueStep(json, cfg, l3, Some(EmptyInstance("O")), Some(NestedField))
         == AfterValue(json, cfg, l3.(offset := 14, tokenType := RightBrace, begin := 13, end := 13),
                       Some(Assign(EmptyInstance("O"), "c", ObjV(Assign(EmptyInstance("C"), "x", Str("a"))))))
  {
    var l4 := l3.(offset := 6, tokenType := LeftBrace, begin := 5, end := 5);
    NestedOpens(json, cfg, l3);
    InnerObjectDecoded(json, cfg, l4);
  }

  lemma {:induction false} NestedOpens(json: string, cfg: Config, l3: Lexer)
    requires json == NestedJson && cfg == NestedConfig && l3.offset == 5
    ensures ValueStep(json, cfg, l3, Some(EmptyInstance("O")), Some(NestedField))
         == ValueToken(json, cfg, l3.(offset := 6, tokenType := LeftBrace, begin := 5, end := 5), Some(EmptyInstance("O")), Some(NestedField))
  {
    StructuralToken(json, l3, 5);
  }

  /** The nested object {"x":"a"} decodes into an instance of C with x assigned. */
  lemma {:induction false} InnerObjectDecoded(json: string, cfg: Config, l4: Lexer)
    requires json == NestedJson && cfg == NestedConfig && l4.offset == 6
    ensures ObjectLoop(json, cfg, l4, Some(EmptyInstance("C")))
         == ObjResult(0, l4.(offset := 14, tokenType := RightBrace, begin := 13, end := 13),
                      Some(Assign(EmptyInstance("C"), "x", Str("a"))))
  {
    InnerName(json, cfg, l4);
    var l6 := l4.(offset := 10, tokenType := Colon, begin := 9, end := 9);
    InnerValue(json, cfg, l6);
    InnerClose(json, cfg, l6.(offset := 13, tokenType := StringTok, begin := 11, end := 11));
  }

  lemma {:induction false} InnerName(json: string, cfg: Config, l4: Lexer)
    requires json == NestedJson && cfg == NestedConfig && l4.offset == 6
    ensures ObjectLoop(json, cfg, l4, Some(EmptyInstance("C")))
         == ValueStep(json, cfg, l4.(offset := 10, tokenType := Colon, begin := 9, end := 9), Some(EmptyInstance("C")), Some(InnerField))
  {
    assert json[7 .. 8] == "x";
    assert FieldsOf(cfg.table, "C") == [InnerField];
    DeclaredNameThenColon(json, cfg, l4, EmptyInstance("C"), InnerField, 8);
  }

  /** "a" is a STRING token for the String field x, and is stored. */
  lemma {:induction false} InnerValue(json: string, cfg: Config, l6: Lexer)
    requires json == NestedJson && cfg == NestedConfig && l6.offset == 10
    ensures ValueStep(json, cfg, l6, Some(EmptyInstance("C")), Some(InnerField))
         == AfterValue(json, cfg, l6.(offset := 13, tokenType := StringTok, begin := 11, end := 11),
                       Some(Assign(EmptyInstance("C"), "x", Str("a"))))
  {
    StringValueBound(json, cfg, l6, Some(EmptyInstance("C")), Some(InnerField), 12);
    assert json[11] == 'a';
    assert json[11 .. 12] == [json[11]] == "a";
  }

  lemma {:induction false} InnerClose(json: string, cfg: Config, l7: Lexer)
    requires json == NestedJson && cfg == NestedConfig && l7.offset == 13
    ensures AfterValue(json, cfg, l7, Some(Assign(EmptyInstance("C"), "x", Str("a"))))
         == ObjResult(0, l7.(offset := 14, tokenType := RightBrace, begin := 13, end := 13),
                      Some(Assign(EmptyInstance("C"), "x", Str("a"))))
  {
    ClosingBraceAfterValue(json, cfg, l7, Some(Assign(EmptyInstance("C"), "x", Str("a"))));
  }
}
