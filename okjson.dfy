/**
  The class OkJson itself (OkJson.java:6-1247): the configuration flags, the cursor fields that
  tokenJsonWord and tokenJsonNumber advance, and errorCode. Every method runs the same steps as
  its Java counterpart, and is proved to leave exactly the state that the matching function of
  the Tokens, Decode or Encode module describes.
 */
module OkJsonCodec {
  import opened Common
  import opened Tokens
  import opened Model
  import opened Decode
  import opened Encode

  /** java.lang.StringBuilder, reduced to the text appended so far. */
  class StringBuilder {
    var text: string

    constructor ()
      ensures text == ""
    {
      text := "";
    }

    method Append(s: string)
      modifies this
      ensures text == old(text) + s
    {
      text := text + s;
    }
  }

  class OkJson {
    var strictPolicyEnable: bool
    var directAccessPropertyEnable: bool
    var formatCompactEnable: bool

    var jsonOffset: int
    var jsonLength: int

    var tokenType: TokenType
    var beginOffset: int
    var endOffset: int
    var booleanValue: bool

    var errorCode: int

    /** The declared fields of every class, which Java obtains by reflection. */
    const types: Table

    /** The cursor: where the next scan starts and what the last one found. */
    ghost function State(): Lexer
      reads this`jsonOffset, this`tokenType, this`beginOffset, this`endOffset, this`booleanValue
    {
      Lexer(jsonOffset, tokenType, beginOffset, endOffset, booleanValue)
    }

    /** The configuration the decoder and the serializer consult. */
    ghost function Cfg(): Config
      reads this`strictPolicyEnable, this`directAccessPropertyEnable, this`formatCompactEnable
    {
      Config(strictPolicyEnable, directAccessPropertyEnable, formatCompactEnable, types)
    }

    /** new OkJson(): lenient, no direct access, pretty layout, no error. */
    constructor (types: Table)
      ensures Cfg() == Config(false, false, false, types)
      ensures errorCode == 0
    {
      this.types := types;
      strictPolicyEnable := false;
      directAccessPropertyEnable := false;
      formatCompactEnable := false;
      jsonOffset := 0;
      jsonLength := 0;
      tokenType := LeftBrace;
      beginOffset := 0;
      endOffset := 0;
      booleanValue := false;
      errorCode := 0;
    }

    method SetDirectAccessPropertyEnable(b: bool)
      modifies this`directAccessPropertyEnable
      ensures Cfg() == old(Cfg()).(direct := b)
    {
      directAccessPropertyEnable := b;
    }

    method SetStrictPolicy(b: bool)
      modifies this`strictPolicyEnable
      ensures Cfg() == old(Cfg()).(strict := b)
    {
      strictPolicyEnable := b;
    }

    method SetFormatCompactEnable(b: bool)
      modifies this`formatCompactEnable
      ensures Cfg() == old(Cfg()).(compact := b)
    {
      formatCompactEnable := b;
    }

    method GetErrorCode() returns (code: int)
      ensures code == errorCode
    {
      code := errorCode;
    }

    // -------------------------------------------------------------------------------------
    // Tokenizer

    /** tokenJsonNumber (OkJson.java:59-92). */
    method TokenJsonNumber(json: string) returns (code: int)
      requires jsonLength == |json| && 0 <= jsonOffset < |json|
      modifies this`jsonOffset, this`tokenType, this`beginOffset, this`endOffset
      ensures Scan(code, State()) == ScanNumber(json, old(State()))
    {
      ghost var spec := ScanNumber(json, State());
      beginOffset := jsonOffset;
      ghost var lx := State();
      var ch := json[jsonOffset];
      if ch == '-' {
        jsonOffset := jsonOffset + 1;
      }
      var decimalPointFlag := false;
      assert NumberRun(json, lx, jsonOffset, false) == spec;
      while jsonOffset < jsonLength
        invariant lx.begin <= jsonOffset <= |json|
        invariant State() == lx.(offset := jsonOffset)
        invariant NumberRun(json, lx, jsonOffset, decimalPointFlag) == spec
        decreases jsonLength - jsonOffset
      {
        ch := json[jsonOffset];
        if IsDigit(ch) {
          jsonOffset := jsonOffset + 1;
        } else if ch == '.' {
          decimalPointFlag := true;
          jsonOffset := jsonOffset + 1;
        } else {
          tokenType := if decimalPointFlag then DecimalTok else IntegerTok;
          endOffset := jsonOffset - 1;
          jsonOffset := jsonOffset + 1;
          return 0;
        }
      }
      return EndOfBuffer;
    }

    /** The string branch of tokenJsonWord (OkJson.java:131-148), entered at the opening quote. */
    method TokenJsonString(json: string) returns (code: int)
      requires jsonLength == |json| && 0 <= jsonOffset < |json| && json[jsonOffset] == '"'
      modifies this`jsonOffset, this`tokenType, this`beginOffset, this`endOffset
      ensures Scan(code, State()) == NextToken(json, old(State()))
    {
      jsonOffset := jsonOffset + 1;
      beginOffset := jsonOffset;
      while jsonOffset < jsonLength
        invariant old(jsonOffset) + 1 == beginOffset <= jsonOffset <= |json|
        invariant tokenType == old(tokenType) && endOffset == old(endOffset)
        invariant CloseQuote(json, jsonOffset) == CloseQuote(json, beginOffset)
        decreases jsonLength - jsonOffset
      {
        var ch := json[jsonOffset];
        if ch == '"' {
          tokenType := StringTok;
          endOffset := jsonOffset - 1;
          jsonOffset := jsonOffset + 1;
          return 0;
        }
        jsonOffset := jsonOffset + 1;
      }
      return EndOfBuffer;
    }

    /** The 't' branch of tokenJsonWord (OkJson.java:164-182). When the spelling breaks off,
        done is false and the scan goes on from the character that did not match; reading past
        the end of the buffer is Java's ArrayIndexOutOfBoundsException, reported as EXCEPTION. */
    method TokenJsonTrue(json: string) returns (done: bool, code: int)
      requires jsonLength == |json| && 0 <= jsonOffset < |json| && json[jsonOffset] == 't'
      modifies this`jsonOffset, this`tokenType, this`beginOffset, this`endOffset, this`booleanValue
      ensures var off := old(jsonOffset);
              match MatchFrom(json, off, "true", 1)
              case Matched =>
                done && code == 0 &&
                State() == old(State()).(offset := off + 4, tokenType := BoolTok, begin := off, end := off + 3, boolValue := true)
              case OutOfBounds => done && code == Exception && State() == old(State()).(offset := |json|, begin := off)
              case Mismatch(k) => !done && State() == old(State()).(offset := k, begin := off)
    {
      var off := jsonOffset;
      beginOffset := jsonOffset;
      jsonOffset := jsonOffset + 1;
      if jsonOffset >= jsonLength { return true, Exception; }
      var ch := json[jsonOffset];
      if ch == 'r' {
        assert MatchFrom(json, off, "true", 1) == MatchFrom(json, off, "true", 2);
        jsonOffset := jsonOffset + 1;
        if jsonOffset >= jsonLength { return true, Exception; }
        ch := json[jsonOffset];
        if ch == 'u' {
          assert MatchFrom(json, off, "true", 2) == MatchFrom(json, off, "true", 3);
          jsonOffset := jsonOffset + 1;
          if jsonOffset >= jsonLength { return true, Exception; }
          ch := json[jsonOffset];
          if ch == 'e' {
            assert MatchFrom(json, off, "true", 3) == MatchFrom(json, off, "true", 4) == Matched;
            tokenType := BoolTok;
            booleanValue := true;
            endOffset := jsonOffset;
            jsonOffset := jsonOffset + 1;
            return true, 0;
          }
        }
      }
      return false, 0;
    }

    /** The 'f' branch of tokenJsonWord (OkJson.java:184-206), as TokenJsonTrue. */
    method TokenJsonFalse(json: string) returns (done: bool, code: int)
      requires jsonLength == |json| && 0 <= jsonOffset < |json| && json[jsonOffset] == 'f'
      modifies this`jsonOffset, this`tokenType, this`beginOffset, this`endOffset, this`booleanValue
      ensures var off := old(jsonOffset);
              match MatchFrom(json, off, "false", 1)
              case Matched =>
                done && code == 0 &&
                State() == old(State()).(offset := off + 5, tokenType := BoolTok, begin := off, end := off + 4, boolValue := false)
              case OutOfBounds => done && code == Exception && State() == old(State()).(offset := |json|, begin := off)
              case Mismatch(k) => !done && State() == old(State()).(offset := k, begin := off)
    {
      var off := jsonOffset;
      beginOffset := jsonOffset;
      jsonOffset := jsonOffset + 1;
      if jsonOffset >= jsonLength { return true, Exception; }
      var ch := json[jsonOffset];
      if ch == 'a' {
        assert MatchFrom(json, off, "false", 1) == MatchFrom(json, off, "false", 2);
        jsonOffset := jsonOffset + 1;
        if jsonOffset >= jsonLength { return true, Exception; }
        ch := json[jsonOffset];
        if ch == 'l' {
          assert MatchFrom(json, off, "false", 2) == MatchFrom(json, off, "false", 3);
          jsonOffset := jsonOffset + 1;
          if jsonOffset >= jsonLength { return true, Exception; }
          ch := json[jsonOffset];
          if ch == 's' {
            assert MatchFrom(json, off, "false", 3) == MatchFrom(json, off, "false", 4);
            jsonOffset := jsonOffset + 1;
            if jsonOffset >= jsonLength { return true, Exception; }
            ch := json[jsonOffset];
            if ch == 'e' {
              assert MatchFrom(json, off, "false", 4) == MatchFrom(json, off, "false", 5) == Matched;
              tokenType := BoolTok;
              booleanValue := false;
              endOffset := jsonOffset;
              jsonOffset := jsonOffset + 1;
              return true, 0;
            }
          }
        }
      }
      return false, 0;
    }

    /** The 'n' branch of tokenJsonWord (OkJson.java:208-227), as TokenJsonTrue; null sets
        booleanValue to true. */
    method TokenJsonNull(json: string) returns (done: bool, code: int)
      requires jsonLength == |json| && 0 <= jsonOffset < |json| && json[jsonOffset] == 'n'
      modifies this`jsonOffset, this`tokenType, this`beginOffset, this`endOffset, this`booleanValue
      ensures var off := old(jsonOffset);
              match MatchFrom(json, off, "null", 1)
              case Matched =>
                done && code == 0 &&
                State() == old(State()).(offset := off + 4, tokenType := NullTok, begin := off, end := off + 3, boolValue := true)
              case OutOfBounds => done && code == Exception && State() == old(State()).(offset := |json|, begin := off)
              case Mismatch(k) => !done && State() == old(State()).(offset := k, begin := off)
    {
      var off := jsonOffset;
      beginOffset := jsonOffset;
      jsonOffset := jsonOffset + 1;
      if jsonOffset >= jsonLength { return true, Exception; }
      var ch := json[jsonOffset];
      if ch == 'u' {
        assert MatchFrom(json, off, "null", 1) == MatchFrom(json, off, "null", 2);
        jsonOffset := jsonOffset + 1;
        if jsonOffset >= jsonLength { return true, Exception; }
        ch := json[jsonOffset];
        if ch == 'l' {
          assert MatchFrom(json, off, "null", 2) == MatchFrom(json, off, "null", 3);
          jsonOffset := jsonOffset + 1;
          if jsonOffset >= jsonLength { return true, Exception; }
          ch := json[jsonOffset];
          if ch == 'l' {
            assert MatchFrom(json, off, "null", 3) == MatchFrom(json, off, "null", 4) == Matched;
            tokenType := NullTok;
            booleanValue := true;
            endOffset := jsonOffset;
            jsonOffset := jsonOffset + 1;
            return true, 0;
          }
        }
      }
      return false, 0;
    }

    /** The three keyword branches of tokenJsonWord (OkJson.java:164-227). done is false when a
        misspelt keyword sends the scan on from the first character that did not match. */
    method TokenJsonKeyword(json: string) returns (done: bool, code: int)
      requires jsonLength == |json| && 0 <= jsonOffset < |json|
      requires json[jsonOffset] == 't' || json[jsonOffset] == 'f' || json[jsonOffset] == 'n'
      modifies this`jsonOffset, this`tokenType, this`beginOffset, this`endOffset, this`booleanValue
      ensures done ==> Scan(code, State()) == NextToken(json, old(State()))
      ensures !done ==> old(jsonOffset) < jsonOffset <= |json|
                        && NextToken(json, State()) == NextToken(json, old(State()))
    {
      KeywordScan(json, State());
      var ch := json[jsonOffset];
      if ch == 't' {
        done, code := TokenJsonTrue(json);
      } else if ch == 'f' {
        done, code := TokenJsonFalse(json);
      } else {
        done, code := TokenJsonNull(json);
      }
    }

    /** tokenJsonWord (OkJson.java:94-236): skips whitespace and scans one token. */
    method TokenJsonWord(json: string) returns (code: int)
      requires jsonLength == |json| && 0 <= jsonOffset <= |json|
      modifies this`jsonOffset, this`tokenType, this`beginOffset, this`endOffset, this`booleanValue
      ensures Scan(code, State()) == NextToken(json, old(State()))
    {
      while jsonOffset < jsonLength
        invariant 0 <= jsonOffset <= |json|
        invariant NextToken(json, State()) == NextToken(json, old(State()))
        decreases jsonLength - jsonOffset
      {
        var ch := json[jsonOffset];
        if ch == ' ' || ch == '\t' || ch == '\r' || ch == '\n' {
          jsonOffset := jsonOffset + 1;
        } else if ch == '{' || ch == '}' || ch == '[' || ch == ']' || ch == ':' || ch == ',' {
          tokenType := StructuralKind(ch);
          beginOffset, endOffset := jsonOffset, jsonOffset;
          jsonOffset := jsonOffset + 1;
          return 0;
        } else if ch == '"' {
          code := TokenJsonString(json);
          return;
        } else if ch == '-' || ('0' <= ch && ch <= '9') {
          code := TokenJsonNumber(json);
          return;
        } else if ch == 't' || ch == 'f' || ch == 'n' {
          var done;
          done, code := TokenJsonKeyword(json);
          if done { return; }
        } else {
          return InvalidByte;
        }
      }
      return EndOfBuffer;
    }

    // -------------------------------------------------------------------------------------
    // Decoder
    //
    // The loops of stringToListObject and stringToObjectProperties read one token at a time and
    // act on it. Each read and the action on it is a method of its own below, proved against
    // the Decode function that describes the rest of the loop from that read on.

    /** setObjectProperty (OkJson.java:416-750): binds the value token spanning
        valueBeginOffset..valueEndOffset to field f of o, as the table PropertyAction says. */
    method SetObjectProperty(json: string, valueTokenType: TokenType, valueBeginOffset: int, valueEndOffset: int,
                             o: Obj, f: FieldDesc) returns (code: int, o': Obj)
      requires 0 <= valueBeginOffset <= valueEndOffset + 1 <= |json|
      ensures var act := PropertyAction(f.kind, valueTokenType, json[valueBeginOffset .. valueEndOffset + 1],
                                        booleanValue, f.hasSetter, directAccessPropertyEnable, strictPolicyEnable);
              && (act.Fail? ==> code == act.code && o' == o)
              && (act.Skip? ==> code == 0 && o' == o)
              && (act.Write? ==> code == 0 && o' == Assign(o, f.name, act.v))
    {
      match PropertyAction(f.kind, valueTokenType, json[valueBeginOffset .. valueEndOffset + 1], booleanValue,
                           f.hasSetter, directAccessPropertyEnable, strictPolicyEnable) {
        case Fail(c) => code, o' := c, o;
        case Skip => code, o' := 0, o;
        case Write(v) => code, o' := 0, Assign(o, f.name, v);
      }
    }

    /** addListObject (OkJson.java:238-334): appends the element token spanning
        valueBeginOffset..valueEndOffset to list, as the table ListAction says. */
    method AddListObject(json: string, valueTokenType: TokenType, valueBeginOffset: int, valueEndOffset: int,
                         list: seq<Value>, field: FieldDesc) returns (code: int, list': seq<Value>)
      requires 0 <= valueBeginOffset <= valueEndOffset + 1 <= |json|
      ensures var act := ListAction(field.kind, valueTokenType, json[valueBeginOffset .. valueEndOffset + 1],
                                    booleanValue, strictPolicyEnable);
              && (act.Fail? ==> code == act.code && list' == list)
              && (act.Skip? ==> code == 0 && list' == list)
              && (act.Write? ==> code == 0 && list' == list + [act.v])
    {
      match ListAction(field.kind, valueTokenType, json[valueBeginOffset .. valueEndOffset + 1], booleanValue,
                       strictPolicyEnable) {
        case Fail(c) => code, list' := c, list;
        case Skip => code, list' := 0, list;
        case Write(v) => code, list' := 0, list + [v];
      }
    }

    /** The read of a list element, a '{' or a scalar (OkJson.java:345-380). done is false when
        the loop goes on to the separator; a '{' element is decoded and appended at once. */
    method TokenElement(json: string, list: seq<Value>, field: Option<FieldDesc>)
      returns (done: bool, code: int, list': seq<Value>)
      requires jsonLength == |json| && 0 <= jsonOffset <= |json|
      modifies this`jsonOffset, this`tokenType, this`beginOffset, this`endOffset, this`booleanValue
      ensures old(jsonOffset) <= jsonOffset <= |json|
      ensures done ==> ListResult(code, State(), list') == ListLoop(json, Cfg(), old(State()), list, field)
      ensures !done ==> old(jsonOffset) < jsonOffset && (jsonOffset == |json| || SpanOk(json, State()))
                        && ListLoop(json, Cfg(), old(State()), list, field) == Separator(json, Cfg(), State(), list', field)
      decreases |json| - jsonOffset, 1
    {
      list' := list;
      code := TokenJsonWord(json);
      if code == EndOfBuffer { return true, 0, list; }
      if code != 0 { return true, code, list; }
      if tokenType == LeftBrace {
        // field.getType() throws on a null field
        if field.None? { return true, Exception, list; }
        if field.value.kind.ListKind? {
          // only a class with a no-argument constructor can be instantiated
          var child := NewElement(field.value.kind.elem);
          if child.None? { return true, Exception, list; }
          var c, decoded := StringToObjectProperties(json, child);
          if c != 0 { return true, c, list; }
          list' := list + [ObjV(decoded.value)];
        }
      } else if tokenType == StringTok || tokenType == IntegerTok || tokenType == DecimalTok || tokenType == BoolTok {
      } else {
        return true, UnexpectTokenAfterLeftBrace, list;
      }
      done := false;
    }

    /** The read of the ',' or ']' after a list element (OkJson.java:386-410); the element, whose
        kind and span the cursor still holds, is then handed to addListObject. done is false
        when the loop goes round again. */
    method TokenAfterElement(json: string, list: seq<Value>, field: Option<FieldDesc>)
      returns (done: bool, code: int, list': seq<Value>)
      requires jsonLength == |json| && 0 <= jsonOffset <= |json|
      requires jsonOffset == |json| || SpanOk(json, State())
      modifies this`jsonOffset, this`tokenType, this`beginOffset, this`endOffset, this`booleanValue
      ensures old(jsonOffset) <= jsonOffset <= |json|
      ensures done ==> ListResult(code, State(), list') == Separator(json, Cfg(), old(State()), list, field)
      ensures !done ==> old(jsonOffset) < jsonOffset
                        && Separator(json, Cfg(), old(State()), list, field) == ListLoop(json, Cfg(), State(), list', field)
    {
      ghost var lv := State();
      var valueTokenType, valueBeginOffset, valueEndOffset := tokenType, beginOffset, endOffset;
      list' := list;
      code := TokenJsonWord(json);
      if code == EndOfBuffer { return true, 0, list; }
      if code != 0 { return true, code, list; }
      assert SpanOk(json, lv) && Text(json, lv) == json[valueBeginOffset .. valueEndOffset + 1];
      if tokenType == Comma || tokenType == RightBracket {
        if field.Some? {
          var c;
          c, list' := AddListObject(json, valueTokenType, valueBeginOffset, valueEndOffset, list, field.value);
          if c != 0 { return true, c, list; }
        }
        if tokenType == RightBracket { return true, 0, list'; }
      } else {
        return true, UnexpectTokenAfterLeftBrace, list;
      }
      done := false;
    }

    /** stringToListObject (OkJson.java:336-414). items is the list decoded into; field is None
        when the enclosing name is unknown and the list is only skipped. */
    method StringToListObject(json: string, items: seq<Value>, field: Option<FieldDesc>)
      returns (code: int, list: seq<Value>)
      requires jsonLength == |json| && 0 <= jsonOffset <= |json|
      modifies this`jsonOffset, this`tokenType, this`beginOffset, this`endOffset, this`booleanValue
      ensures ListResult(code, State(), list) == ListLoop(json, Cfg(), old(State()), items, field)
      decreases |json| - jsonOffset, 2
    {
      ghost var spec := ListLoop(json, Cfg(), State(), items, field);
      list := items;
      while true
        invariant old(jsonOffset) <= jsonOffset <= |json|
        invariant ListLoop(json, Cfg(), State(), list, field) == spec
        decreases |json| - jsonOffset
      {
        var done;
        done, code, list := TokenElement(json, list, field);
        if done { return; }
        done, code, list := TokenAfterElement(json, list, field);
        if done { return; }
      }
    }

    /** The read of a name (OkJson.java:811-841) and its lookup among the declared fields.
        done is false when the loop goes on to the token after the name. */
    method TokenName(json: string, target: Option<Obj>) returns (done: bool, code: int, name: string, field: Option<FieldDesc>)
      requires jsonLength == |json| && 0 <= jsonOffset <= |json|
      modifies this`jsonOffset, this`tokenType, this`beginOffset, this`endOffset, this`booleanValue
      ensures old(jsonOffset) <= jsonOffset <= |json|
      ensures done ==> ObjResult(code, State(), target) == ObjectLoop(json, Cfg(), old(State()), target)
      ensures !done ==> old(jsonOffset) < jsonOffset && SpanOk(json, State()) && name == Text(json, State())
                        && (field.Some? ==> target.Some?)
                        && ObjectLoop(json, Cfg(), old(State()), target) == AfterName(json, Cfg(), State(), target, field)
    {
      name, field := "", None;
      code := TokenJsonWord(json);
      if code == EndOfBuffer { return true, 0, name, field; }
      if code != 0 { return true, code, name, field; }
      name := json[beginOffset .. endOffset + 1];
      if target.Some? {
        field := Lookup(FieldsOf(types, target.value.typeName), name);
        if field.None? && strictPolicyEnable { return true, NameNotFoundInObject, name, field; }
      }
      if tokenType != StringTok { return true, NameInvalid, name, field; }
      done := false;
    }

    /** The read of the ':' (or ',', '}' or ']') after a name (OkJson.java:843-873). done is
        false when the loop goes on to the value. */
    method TokenAfterName(json: string, target: Option<Obj>, name: string, field: Option<FieldDesc>)
      returns (done: bool, code: int)
      requires jsonLength == |json| && SpanOk(json, State()) && name == Text(json, State())
      requires field.Some? ==> target.Some?
      modifies this`jsonOffset, this`tokenType, this`beginOffset, this`endOffset, this`booleanValue
      ensures old(jsonOffset) <= jsonOffset <= |json|
      ensures done ==> ObjResult(code, State(), target) == AfterName(json, Cfg(), old(State()), target, field)
      ensures !done ==> old(jsonOffset) < jsonOffset
                        && AfterName(json, Cfg(), old(State()), target, field) == ValueStep(json, Cfg(), State(), target, field)
    {
      code := TokenJsonWord(json);
      if code == EndOfBuffer { return true, 0; }
      if code != 0 { return true, code; }
      if tokenType == Colon {
      } else if tokenType == Comma || tokenType == RightBrace {
        // field.getType() throws on a null field
        if field.None? { return true, Exception; }
        if field.value.kind.ListKind? {
          // addListObject is handed the enclosing object as the list: adding to it is a
          // ClassCastException
          match ListAction(field.value.kind, StringTok, name, booleanValue, strictPolicyEnable) {
            case Write(_) => return true, Exception;
            case Fail(c) => return true, c;
            case Skip =>
          }
          if tokenType == RightBrace { return true, 0; }
        }
      } else if tokenType == RightBracket {
        return true, 0;
      } else {
        return true, ExpectColonAfterName;
      }
      done := false;
    }

    /** A '{' value (OkJson.java:880-895), its first token just read: decoded
        into a new instance of a nested field's type and stored straight into the field, or
        skipped when the name is unknown. */
    method TokenObjectValue(json: string, target: Option<Obj>, field: Option<FieldDesc>)
      returns (done: bool, code: int, target': Option<Obj>)
      requires jsonLength == |json| && SpanOk(json, State())
      requires field.Some? ==> target.Some?
      requires tokenType == LeftBrace
      modifies this`jsonOffset, this`tokenType, this`beginOffset, this`endOffset, this`booleanValue
      ensures old(jsonOffset) <= jsonOffset <= |json|
      ensures done ==> ObjResult(code, State(), target') == ValueToken(json, Cfg(), old(State()), target, field)
      ensures !done ==> target'.Some? == target.Some?
                        && ValueToken(json, Cfg(), old(State()), target, field) == AfterValue(json, Cfg(), State(), target')
      decreases |json| - jsonOffset, 3
    {
      target' := target;
      if field.None? {
        var c, _ := StringToObjectProperties(json, None);
        if c != 0 { return true, c, target; }
      } else if field.value.kind.Nested? {
        var c, child := StringToObjectProperties(json, Some(EmptyInstance(field.value.kind.typeName)));
        if c != 0 { return true, c, target; }
        // field.set(object, childObject): stored directly, setter or not
        target' := Some(Assign(target.value, field.value.name, ObjV(child.value)));
      } else {
        return true, Exception, target;
      }
      return false, 0, target';
    }

    /** A '[' value (OkJson.java:896-911), its first token just read: the list
        is decoded into a new instance of the field's type and stored straight into the field,
        or skipped when the name is unknown. */
    method TokenListValue(json: string, target: Option<Obj>, field: Option<FieldDesc>)
      returns (done: bool, code: int, target': Option<Obj>)
      requires jsonLength == |json| && SpanOk(json, State())
      requires field.Some? ==> target.Some?
      requires tokenType == LeftBracket
      modifies this`jsonOffset, this`tokenType, this`beginOffset, this`endOffset, this`booleanValue
      ensures old(jsonOffset) <= jsonOffset <= |json|
      ensures done ==> ObjResult(code, State(), target') == ValueToken(json, Cfg(), old(State()), target, field)
      ensures !done ==> target'.Some? == target.Some?
                        && ValueToken(json, Cfg(), old(State()), target, field) == AfterValue(json, Cfg(), State(), target')
      decreases |json| - jsonOffset, 3
    {
      target' := target;
      if field.None? {
        var c, _ := StringToListObject(json, [], None);
        if c != 0 { return true, c, target; }
      } else {
        var child := NewInstance(field.value.kind);
        if child.None? { return true, Exception, target; }
        var c, list := StringToListObject(json, [], field);
        if c != 0 { return true, c, target; }
        var value := if child.value.ListV? then ListV(list) else child.value;
        target' := Some(Assign(target.value, field.value.name, value));
      }
      return false, 0, target';
    }

    /** Any other value (OkJson.java:915-921), its token just read: handed to setObjectProperty
        when the name is a declared field, skipped otherwise. Nothing is read here. */
    method TokenScalarValue(json: string, target: Option<Obj>, field: Option<FieldDesc>)
      returns (done: bool, code: int, target': Option<Obj>)
      requires jsonLength == |json| && SpanOk(json, State())
      requires field.Some? ==> target.Some?
      requires tokenType != LeftBrace && tokenType != LeftBracket
      ensures done <==> code != 0
      ensures (code, target') == ScalarBinding(json, Cfg(), State(), target, field)
    {
      if field.Some? {
        assert Text(json, State()) == json[beginOffset .. endOffset + 1];
        var o;
        code, o := SetObjectProperty(json, tokenType, beginOffset, endOffset, target.value, field.value);
        target' := if code != 0 then target else Some(o);
      } else {
        code, target' := 0, target;
      }
      done := code != 0;
    }

    /** The value of a name/value pair (OkJson.java:875-921). done is false when the read of
        the token after the value comes next. */
    method TokenValue(json: string, target: Option<Obj>, field: Option<FieldDesc>)
      returns (done: bool, code: int, target': Option<Obj>)
      requires jsonLength == |json| && 0 <= jsonOffset <= |json|
      requires field.Some? ==> target.Some?
      modifies this`jsonOffset, this`tokenType, this`beginOffset, this`endOffset, this`booleanValue
      ensures old(jsonOffset) <= jsonOffset <= |json|
      ensures done ==> ObjResult(code, State(), target') == ValueStep(json, Cfg(), old(State()), target, field)
      ensures !done ==> old(jsonOffset) < jsonOffset && target'.Some? == target.Some?
                        && ValueStep(json, Cfg(), old(State()), target, field) == AfterValue(json, Cfg(), State(), target')
      decreases |json| - jsonOffset, 1
    {
      target' := target;
      code := TokenJsonWord(json);
      if code == EndOfBuffer { return true, 0, target; }
      if code != 0 { return true, code, target; }
      if tokenType == LeftBrace {
        done, code, target' := TokenObjectValue(json, target, field);
      } else if tokenType == LeftBracket {
        done, code, target' := TokenListValue(json, target, field);
      } else {
        ghost var l3 := State();
        assert ValueToken(json, Cfg(), l3, target, field) == ScalarValue(json, Cfg(), l3, target, field);
        done, code, target' := TokenScalarValue(json, target, field);
      }
    }

    /** The read of the ',', '}' or ']' after a value (OkJson.java:923-947). done is false when
        the loop goes round again. */
    method TokenAfterValue(json: string, target: Option<Obj>) returns (done: bool, code: int)
      requires jsonLength == |json| && 0 <= jsonOffset <= |json|
      modifies this`jsonOffset, this`tokenType, this`beginOffset, this`endOffset, this`booleanValue
      ensures old(jsonOffset) <= jsonOffset <= |json|
      ensures done ==> ObjResult(code, State(), target) == AfterValue(json, Cfg(), old(State()), target)
      ensures !done ==> old(jsonOffset) < jsonOffset
                        && AfterValue(json, Cfg(), old(State()), target) == ObjectLoop(json, Cfg(), State(), target)
    {
      code := TokenJsonWord(json);
      if code == EndOfBuffer { return true, 0; }
      if code != 0 { return true, code; }
      if tokenType == Comma {
      } else if tokenType == RightBrace || tokenType == RightBracket {
        return true, 0;
      } else {
        return true, ExpectColonAfterName;
      }
      done := false;
    }

    /** stringToObjectProperties (OkJson.java:752-951). target is the object decoded into, or
        None when the enclosing name is unknown and the object is only skipped. */
    method StringToObjectProperties(json: string, target: Option<Obj>) returns (code: int, filled: Option<Obj>)
      requires jsonLength == |json| && 0 <= jsonOffset <= |json|
      modifies this`jsonOffset, this`tokenType, this`beginOffset, this`endOffset, this`booleanValue
      ensures ObjResult(code, State(), filled) == ObjectLoop(json, Cfg(), old(State()), target)
      decreases |json| - jsonOffset, 2
    {
      ghost var spec := ObjectLoop(json, Cfg(), State(), target);
      filled := target;
      while true
        invariant old(jsonOffset) <= jsonOffset <= |json|
        invariant ObjectLoop(json, Cfg(), State(), filled) == spec
        decreases |json| - jsonOffset
      {
        var done, name, field;
        done, code, name, field := TokenName(json, filled);
        if done { return; }
        done, code := TokenAfterName(json, filled, name, field);
        if done { return; }
        done, code, filled := TokenValue(json, filled, field);
        if done { return; }
        done, code := TokenAfterValue(json, filled);
        if done { return; }
      }
    }

    /** prepareStringToObject (OkJson.java:953-995): decodes json into obj and leaves the status
        in errorCode; the result is None (Java's null) on any nonzero status. */
    method PrepareStringToObject(json: string, obj: Obj) returns (r: Option<Obj>)
      modifies this`jsonOffset, this`jsonLength, this`tokenType, this`beginOffset, this`endOffset,
               this`booleanValue, this`errorCode
      ensures jsonLength == |json|
      ensures Decoded(errorCode, State(), r) == Prepare(json, Cfg(), old(State()), obj)
    {
      jsonOffset := 0;
      jsonLength := |json|;
      var nret := TokenJsonWord(json);
      errorCode := nret;
      if errorCode != 0 { return None; }
      if tokenType != LeftBrace {
        errorCode := FindFirstLeftBrace;
        return None;
      }
      nret, r := StringToObjectProperties(json, Some(obj));
      errorCode := nret;
      if errorCode != 0 { return None; }
    }

    /** stringToObject (OkJson.java:997-1009): decodes json into a new instance of the class
        typeName. */
    method StringToObject(json: string, typeName: string) returns (r: Option<Obj>)
      modifies this`jsonOffset, this`jsonLength, this`tokenType, this`beginOffset, this`endOffset,
               this`booleanValue, this`errorCode
      ensures Decoded(errorCode, State(), r) == Prepare(json, Cfg(), old(State()), EmptyInstance(typeName))
    {
      r := PrepareStringToObject(json, EmptyInstance(typeName));
    }

    // -------------------------------------------------------------------------------------
    // Serializer

    /** appendBuilderTabs (OkJson.java:1011-1018). */
    method AppendBuilderTabs(builder: StringBuilder, depth: int)
      modifies builder
      ensures builder.text == old(builder.text) + Tabs(depth)
    {
      var i := 1;
      while i < depth
        invariant 1 <= i && (i <= depth || i == 1)
        invariant builder.text == old(builder.text) + Tabs(i)
      {
        builder.Append("\t");
        i := i + 1;
      }
    }

    /** The appends of one scalar member (OkJson.java:1141-1152). */
    method AppendScalarMember(builder: StringBuilder, name: string, value: string, more: bool, depth: int)
      modifies builder
      ensures builder.text == old(builder.text) + ScalarMember(Cfg(), name, value, more, depth)
    {
      ghost var before := builder.text;
      var piece;
      if formatCompactEnable {
        piece := "\"" + name + "\":\"" + value + "\"";
        builder.Append(piece);
        if more {
          builder.Append(",");
          assert builder.text == before + (piece + ",");
        }
      } else {
        AppendBuilderTabs(builder, depth + 1);
        piece := "\"" + name + "\" : \"" + value + "\"";
        ghost var member := Tabs(depth + 1) + piece;
        builder.Append(piece);
        assert builder.text == before + member;
        if more {
          builder.Append(" ,");
          assert builder.text == before + (member + " ,");
          member := member + " ,";
        }
        builder.Append("\n");
        assert builder.text == before + (member + "\n");
      }
    }

    /** The appends that open a nested object member (OkJson.java:1164-1168). */
    method AppendNestedHeader(builder: StringBuilder, name: string, depth: int)
      modifies builder
      ensures builder.text == old(builder.text) + NestedHeader(Cfg(), name, depth)
    {
      if formatCompactEnable {
        builder.Append("\"" + name + "\":");
        builder.Append("{");
      } else {
        AppendBuilderTabs(builder, depth + 1);
        builder.Append("\"" + name + "\" : ");
        builder.Append("{\n");
      }
    }

    /** The appends that close a nested object member (OkJson.java:1174-1178). */
    method AppendNestedFooter(builder: StringBuilder, depth: int)
      modifies builder
      ensures builder.text == old(builder.text) + NestedFooter(Cfg(), depth)
    {
      if formatCompactEnable {
        builder.Append("}");
      } else {
        AppendBuilderTabs(builder, depth + 1);
        builder.Append("}\n");
      }
    }

    /** A nested object member (OkJson.java:1161-1184): header, the members of the child one
        level deeper, footer; the footer is not written when the child fails. */
    method AppendNestedMember(o: Obj, f: FieldDesc, more: bool, builder: StringBuilder, depth: int)
      returns (stop: bool, code: int)
      requires !f.hasGetter && directAccessPropertyEnable && f.kind.Nested?
      requires f.name in o.fields && o.fields[f.name].ObjV?
      modifies builder, this`errorCode
      ensures (stop, code, builder.text, errorCode)
           == Applied(old(builder.text), old(errorCode), Member(Cfg(), o, f, more, depth))
      decreases o, 0, 0
    {
      var child := o.fields[f.name].obj;
      ghost var before := builder.text;
      ghost var inner := FieldsFrom(Cfg(), child, FieldsOf(types, child.typeName), 0, depth + 1);
      ghost var head := NestedHeader(Cfg(), f.name, depth) + inner.text;
      AppendNestedHeader(builder, f.name, depth);
      errorCode := ObjectToPropertiesString(child, builder, depth + 1);
      assert builder.text == before + head;
      if errorCode != 0 { return true, errorCode; }
      AppendNestedFooter(builder, depth);
      assert builder.text == before + (head + NestedFooter(Cfg(), depth));
      return false, 0;
    }

    /** One pass of the loop of objectToPropertiesString (OkJson.java:1033-1193): appends the
        member for field f of o; stop is true when the walk ends here. */
    method AppendProperty(o: Obj, f: FieldDesc, more: bool, builder: StringBuilder, depth: int)
      returns (stop: bool, code: int)
      modifies builder, this`errorCode
      ensures (stop, code, builder.text, errorCode)
           == Applied(old(builder.text), old(errorCode), Member(Cfg(), o, f, more, depth))
      decreases o, 0, 1
    {
      ghost var before := builder.text;
      if f.hasGetter {
        // get<Name>(T) exists; it is invoked with no argument, which throws
        if IsScalar(f.kind) {
          errorCode := Unexpect;
          assert before + "" == before;
          return true, errorCode;
        } else if f.kind.ListKind? {
        } else {
          AppendNestedHeader(builder, f.name, depth);
          errorCode := Unexpect;
          return true, errorCode;
        }
      } else if directAccessPropertyEnable {
        if IsScalar(f.kind) {
          AppendScalarMember(builder, f.name, Render(FieldValue(o, f)), more, depth);
          return false, 0;
        } else if f.kind.ListKind? {
        } else if f.name in o.fields && o.fields[f.name].ObjV? {
          stop, code := AppendNestedMember(o, f, more, builder, depth);
          return;
        }
      }
      assert before + "" == before;
      return false, 0;
    }

    /** objectToPropertiesString (OkJson.java:1020-1196): appends the declared fields of o to
        builder, at the given depth of nesting. */
    method ObjectToPropertiesString(o: Obj, builder: StringBuilder, depth: int) returns (code: int)
      modifies builder, this`errorCode
      ensures (builder.text, code, errorCode)
           == After(old(builder.text), old(errorCode), FieldsFrom(Cfg(), o, FieldsOf(types, o.typeName), 0, depth))
      decreases o, 1, 0
    {
      var fields := FieldsOf(types, o.typeName);
      var fieldIndex: nat := 0;
      var fieldCount := |fields|;
      ghost var all := After(old(builder.text), old(errorCode), FieldsFrom(Cfg(), o, fields, 0, depth));
      while fieldIndex < fieldCount
        invariant fieldIndex <= fieldCount
        invariant all == After(builder.text, errorCode, FieldsFrom(Cfg(), o, fields, fieldIndex, depth))
      {
        AfterMember(Cfg(), o, fields, fieldIndex, depth, builder.text, errorCode);
        var stop;
        stop, code := AppendProperty(o, fields[fieldIndex], fieldIndex + 1 < fieldCount, builder, depth);
        if stop { return; }
        fieldIndex := fieldIndex + 1;
      }
      assert builder.text + "" == builder.text;
      return 0;
    }

    /** objectToString (OkJson.java:1198-1221): the JSON text of o, or None (Java's null) when
        objectToPropertiesString fails. */
    method ObjectToString(o: Obj) returns (r: Option<string>)
      modifies this`errorCode
      ensures Rendered(r, errorCode) == Serialize(Cfg(), o, old(errorCode))
    {
      var builder := new StringBuilder();
      if formatCompactEnable {
        builder.Append("{");
      } else {
        builder.Append("{\n");
      }
      assert builder.text == Open(Cfg());
      ghost var s := FieldsFrom(Cfg(), o, FieldsOf(Cfg().table, o.typeName), 0, 1);
      var nret := ObjectToPropertiesString(o, builder, 1);
      assert builder.text == Open(Cfg()) + s.text && nret == s.code;
      if nret != 0 { return None; }
      if formatCompactEnable {
        builder.Append("}");
      } else {
        builder.Append("}\n");
      }
      assert builder.text == Open(Cfg()) + s.text + Close(Cfg());
      return Some(builder.text);
    }
  }
}
