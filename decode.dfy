/**
  The recursive-descent decoder of OkJson as functions over the cursor: the object loop of
  stringToObjectProperties (OkJson.java:752-951), split at its four token reads into ObjectLoop,
  AfterName, ValueStep and AfterValue; the list loop of stringToListObject (OkJson.java:336-414),
  split into ListLoop and Separator; and prepareStringToObject (OkJson.java:953-995) as Prepare.
  Each function returns the first nonzero status met, the cursor, and the target as far as it
  was populated.
 */
module Decode {
  import opened Common
  import opened Tokens
  import opened Model

  /** Result of an object loop: status, cursor, and the target object (None when the name was
      not found and the value is only skipped). */
  datatype ObjResult = ObjResult(code: int, lexer: Lexer, target: Option<Obj>)

  /** Result of a list loop: status, cursor, and the list's elements. */
  datatype ListResult = ListResult(code: int, lexer: Lexer, items: seq<Value>)

  /** Result of prepareStringToObject: the status it leaves in errorCode, the cursor, and the
      decoded object, or None for Java's null. */
  datatype Decoded = Decoded(code: int, lexer: Lexer, result: Option<Obj>)

  /** A loop that succeeds stops either at the end of the buffer or right after a closing token. */
  predicate StopsAt(json: string, lx: Lexer, closers: set<TokenType>)
  {
    lx.offset == |json| || (SpanOk(json, lx) && lx.offset == lx.end + 1 && lx.tokenType in closers)
  }

  predicate ObjPost(json: string, lx: Lexer, target: Option<Obj>, r: ObjResult)
  {
    && lx.offset <= r.lexer.offset <= |json|
    && r.target.Some? == target.Some?
    && (target.Some? ==> r.target.value.typeName == target.value.typeName)
    && (r.code == 0 ==> StopsAt(json, r.lexer, {RightBrace, RightBracket}))
  }

  predicate ListPost(json: string, lx: Lexer, items: seq<Value>, r: ListResult)
  {
    && lx.offset <= r.lexer.offset <= |json|
    && items <= r.items
    && (r.code == 0 ==> StopsAt(json, r.lexer, {RightBracket}))
  }

  /** What Class.newInstance yields for a field type: an empty String, an empty list, or a fresh
      object; boxed and primitive types have no such constructor. */
  function NewInstance(k: Kind): Option<Value>
  {
    match k
    case StringKind => Some(Str(""))
    case ListKind(_) => Some(ListV([]))
    case Nested(t) => Some(ObjV(EmptyInstance(t)))
    case _ => None
  }

  /** The object built for a '{' element of a list: only an object element type has one. */
  function NewElement(e: ElemKind): Option<Obj>
  {
    match e
    case ElemObject(t) => Some(EmptyInstance(t))
    case _ => None
  }

  /** The token kinds a list element may start with. */
  predicate IsScalarToken(t: TokenType)
  {
    t == StringTok || t == IntegerTok || t == DecimalTok || t == BoolTok
  }

  /** One pass of the object loop, from the read of the name (OkJson.java:810-841). */
  function ObjectLoop(json: string, cfg: Config, lx: Lexer, target: Option<Obj>): (r: ObjResult)
    requires 0 <= lx.offset <= |json|
    decreases |json| - lx.offset, 0
    ensures ObjPost(json, lx, target, r)
  {
    var s := NextToken(json, lx);
    if s.code == EndOfBuffer then ObjResult(0, s.lexer, target)
    else if s.code != 0 then ObjResult(s.code, s.lexer, target)
    else
      var l1 := s.lexer;
      var name := Text(json, l1);
      var field := if target.Some? then Lookup(FieldsOf(cfg.table, target.value.typeName), name) else None;
      if target.Some? && field.None? && cfg.strict then ObjResult(NameNotFoundInObject, l1, target)
      else if l1.tokenType != StringTok then ObjResult(NameInvalid, l1, target)
      else AfterName(json, cfg, l1, target, field)
  }

  /** The token after a name (OkJson.java:843-873). A ',' or '}' there is the list-of-names
      form: it dereferences the field (NullPointerException, -8, when there is none) and, for a
      list field, hands the name to addListObject with the enclosing object as the list, which
      Java rejects with a ClassCastException (-8) as soon as an element would be added. */
  function AfterName(json: string, cfg: Config, l1: Lexer, target: Option<Obj>, field: Option<FieldDesc>): (r: ObjResult)
    requires SpanOk(json, l1) && l1.offset <= |json|
    requires field.Some? ==> target.Some?
    decreases |json| - l1.offset, 0
    ensures ObjPost(json, l1, target, r)
  {
    var s := NextToken(json, l1);
    if s.code == EndOfBuffer then ObjResult(0, s.lexer, target)
    else if s.code != 0 then ObjResult(s.code, s.lexer, target)
    else
      var l2 := s.lexer;
      if l2.tokenType == Colon then ValueStep(json, cfg, l2, target, field)
      else if l2.tokenType == Comma || l2.tokenType == RightBrace then
        if field.None? then ObjResult(Exception, l2, target)
        else if field.value.kind.ListKind? then
          match ListAction(field.value.kind, StringTok, Text(json, l1), l2.boolValue, cfg.strict)
          case Write(_) => ObjResult(Exception, l2, target)
          case Fail(c) => ObjResult(c, l2, target)
          case Skip =>
            if l2.tokenType == RightBrace then ObjResult(0, l2, target)
            else ValueStep(json, cfg, l2, target, field)
        else ValueStep(json, cfg, l2, target, field)
      else if l2.tokenType == RightBracket then ObjResult(0, l2, target)
      else ObjResult(ExpectColonAfterName, l2, target)
  }

  /** The value of a name/value pair (OkJson.java:875-921), from the read of its first token. */
  function ValueStep(json: string, cfg: Config, l2: Lexer, target: Option<Obj>, field: Option<FieldDesc>): (r: ObjResult)
    requires 0 <= l2.offset <= |json|
    requires field.Some? ==> target.Some?
    decreases |json| - l2.offset, 0
    ensures ObjPost(json, l2, target, r)
  {
    var s := NextToken(json, l2);
    if s.code == EndOfBuffer then ObjResult(0, s.lexer, target)
    else if s.code != 0 then ObjResult(s.code, s.lexer, target)
    else ValueToken(json, cfg, s.lexer, target, field)
  }

  /** What is done with the value whose first token l3 has just read (OkJson.java:880-921). A
      '{' or '[' is decoded into a new instance that is then stored straight into the field,
      setter or not (:909); any other value goes to setObjectProperty. */
  function ValueToken(json: string, cfg: Config, l3: Lexer, target: Option<Obj>, field: Option<FieldDesc>): (r: ObjResult)
    requires SpanOk(json, l3)
    requires field.Some? ==> target.Some?
    decreases |json| - l3.offset, 2
    ensures ObjPost(json, l3, target, r)
  {
    if l3.tokenType == LeftBrace then
      if field.None? then
        var r := ObjectLoop(json, cfg, l3, None);
        if r.code != 0 then ObjResult(r.code, r.lexer, target)
        else AfterValue(json, cfg, r.lexer, target)
      else if field.value.kind.Nested? then
        var r := ObjectLoop(json, cfg, l3, Some(EmptyInstance(field.value.kind.typeName)));
        if r.code != 0 then ObjResult(r.code, r.lexer, target)
        else AfterValue(json, cfg, r.lexer, Some(Assign(target.value, field.value.name, ObjV(r.target.value))))
      else ObjResult(Exception, l3, target)
    else if l3.tokenType == LeftBracket then
      if field.None? then
        var r := ListLoop(json, cfg, l3, [], None);
        if r.code != 0 then ObjResult(r.code, r.lexer, target)
        else AfterValue(json, cfg, r.lexer, target)
      else
        match NewInstance(field.value.kind)
        case None => ObjResult(Exception, l3, target)
        case Some(child) =>
          var r := ListLoop(json, cfg, l3, [], field);
          if r.code != 0 then ObjResult(r.code, r.lexer, target)
          else
            var filled := if child.ListV? then ListV(r.items) else child;
            AfterValue(json, cfg, r.lexer, Some(Assign(target.value, field.value.name, filled)))
    else ScalarValue(json, cfg, l3, target, field)
  }

  /** The binding of a scalar token (OkJson.java:915-921): the status setObjectProperty returns
      for a declared name, as PropertyAction says, and the target afterwards; an undeclared name
      binds nothing. */
  function ScalarBinding(json: string, cfg: Config, l3: Lexer, target: Option<Obj>, field: Option<FieldDesc>)
    : (r: (int, Option<Obj>))
    requires SpanOk(json, l3)
    requires field.Some? ==> target.Some?
    ensures r.1.Some? == target.Some? && (target.Some? ==> r.1.value.typeName == target.value.typeName)
    ensures r.0 != 0 ==> r.1 == target
  {
    if field.Some? then
      var f := field.value;
      match PropertyAction(f.kind, l3.tokenType, Text(json, l3), l3.boolValue, f.hasSetter, cfg.direct, cfg.strict)
      case Fail(c) => (c, target)
      case Skip => (0, target)
      case Write(v) => (0, Some(Assign(target.value, f.name, v)))
    else (0, target)
  }

  /** A scalar value (OkJson.java:915-921): a nonzero status from the binding ends the object,
      otherwise the token after the value is read with the bound target. */
  function ScalarValue(json: string, cfg: Config, l3: Lexer, target: Option<Obj>, field: Option<FieldDesc>): (r: ObjResult)
    requires SpanOk(json, l3)
    requires field.Some? ==> target.Some?
    decreases |json| - l3.offset, 1
    ensures ObjPost(json, l3, target, r)
  {
    var (code, target') := ScalarBinding(json, cfg, l3, target, field);
    if code != 0 then ObjResult(code, l3, target) else AfterValue(json, cfg, l3, target')
  }

  /** The token after a value (OkJson.java:923-947): ',' goes round again, '}' or ']' ends the
      object, anything else is reported as EXPECT_COLON_AFTER_NAME (-23). */
  function AfterValue(json: string, cfg: Config, l4: Lexer, target: Option<Obj>): (r: ObjResult)
    requires 0 <= l4.offset <= |json|
    decreases |json| - l4.offset, 0
    ensures ObjPost(json, l4, target, r)
  {
    var s := NextToken(json, l4);
    if s.code == EndOfBuffer then ObjResult(0, s.lexer, target)
    else if s.code != 0 then ObjResult(s.code, s.lexer, target)
    else if s.lexer.tokenType == Comma then ObjectLoop(json, cfg, s.lexer, target)
    else if s.lexer.tokenType == RightBrace || s.lexer.tokenType == RightBracket then ObjResult(0, s.lexer, target)
    else ObjResult(ExpectColonAfterName, s.lexer, target)
  }

  /** One pass of the list loop, from the read of an element (OkJson.java:344-384). A '{'
      element is decoded into a new instance of the element type and appended at once. */
  function ListLoop(json: string, cfg: Config, lx: Lexer, items: seq<Value>, field: Option<FieldDesc>): (r: ListResult)
    requires 0 <= lx.offset <= |json|
    decreases |json| - lx.offset, 0
    ensures ListPost(json, lx, items, r)
  {
    var s := NextToken(json, lx);
    if s.code == EndOfBuffer then ListResult(0, s.lexer, items)
    else if s.code != 0 then ListResult(s.code, s.lexer, items)
    else
      var l1 := s.lexer;
      if l1.tokenType == LeftBrace then
        if field.None? then ListResult(Exception, l1, items)
        else if field.value.kind.ListKind? then
          match NewElement(field.value.kind.elem)
          case None => ListResult(Exception, l1, items)
          case Some(child) =>
            var r := ObjectLoop(json, cfg, l1, Some(child));
            if r.code != 0 then ListResult(r.code, r.lexer, items)
            else Separator(json, cfg, r.lexer, items + [ObjV(r.target.value)], field)
        else Separator(json, cfg, l1, items, field)
      else if IsScalarToken(l1.tokenType) then Separator(json, cfg, l1, items, field)
      else ListResult(UnexpectTokenAfterLeftBrace, l1, items)
  }

  /** The token after a list element (OkJson.java:386-410): on ',' or ']' the element is handed
      to addListObject, then ',' goes round again and ']' ends the list. The element's kind and
      span are those of the cursor lv left by the element (for a '{' element, by its object). */
  function Separator(json: string, cfg: Config, lv: Lexer, items: seq<Value>, field: Option<FieldDesc>): (r: ListResult)
    requires 0 <= lv.offset <= |json|
    requires lv.offset == |json| || SpanOk(json, lv)
    decreases |json| - lv.offset, 0
    ensures ListPost(json, lv, items, r)
  {
    var s := NextToken(json, lv);
    if s.code == EndOfBuffer then ListResult(0, s.lexer, items)
    else if s.code != 0 then ListResult(s.code, s.lexer, items)
    else
      var l2 := s.lexer;
      if l2.tokenType == Comma || l2.tokenType == RightBracket then
        var act := if field.Some? then ListAction(field.value.kind, lv.tokenType, Text(json, lv), l2.boolValue, cfg.strict) else Skip;
        if act.Fail? then ListResult(act.code, l2, items)
        else
          var next := if act.Write? then items + [act.v] else items;
          if l2.tokenType == RightBracket then ListResult(0, l2, next)
          else ListLoop(json, cfg, l2, next, field)
      else ListResult(UnexpectTokenAfterLeftBrace, l2, items)
  }

  /** prepareStringToObject: the cursor restarts at offset 0, the first token must be '{', and
      the object loop then fills obj. Any nonzero status yields no object. */
  function Prepare(json: string, cfg: Config, lx: Lexer, obj: Obj): (r: Decoded)
    ensures r.result.Some? <==> r.code == 0
    ensures r.result.Some? ==> r.result.value.typeName == obj.typeName
    ensures 0 <= r.lexer.offset <= |json|
  {
    var s := NextToken(json, lx.(offset := 0));
    if s.code != 0 then Decoded(s.code, s.lexer, None)
    else if s.lexer.tokenType != LeftBrace then Decoded(FindFirstLeftBrace, s.lexer, None)
    else
      var r := ObjectLoop(json, cfg, s.lexer, Some(obj));
      if r.code != 0 then Decoded(r.code, r.lexer, None) else Decoded(0, r.lexer, r.target)
  }

  // ---------------------------------------------------------------------------------------
  // Trailing input: a decode that stops at a closing token reads nothing after it

  lemma AgreeText(json: string, json2: string, lx: Lexer, n: int)
    requires SpanOk(json, lx) && lx.offset <= n && Agree(json, json2, n)
    ensures SpanOk(json2, lx) && Text(json2, lx) == Text(json, lx)
  {
    assert forall p :: 0 <= p < lx.end + 1 - lx.begin ==> Text(json2, lx)[p] == json2[lx.begin + p];
  }

  lemma {:induction false} ObjectLoopIgnoresRest(json: string, json2: string, cfg: Config, lx: Lexer, target: Option<Obj>)
    requires 0 <= lx.offset <= |json|
    requires ObjectLoop(json, cfg, lx, target).code == 0
    requires ObjectLoop(json, cfg, lx, target).lexer.offset < |json|
    requires Agree(json, json2, ObjectLoop(json, cfg, lx, target).lexer.offset)
    ensures ObjectLoop(json2, cfg, lx, target) == ObjectLoop(json, cfg, lx, target)
    decreases |json| - lx.offset, 3
  {
    var s := NextToken(json, lx);
    ScanIgnoresRest(json, json2, lx);
    var l1 := s.lexer;
    var n := ObjectLoop(json, cfg, lx, target).lexer.offset;
    AgreeText(json, json2, l1, n);
    var field := if target.Some? then Lookup(FieldsOf(cfg.table, target.value.typeName), Text(json, l1)) else None;
    if !(target.Some? && field.None? && cfg.strict) && l1.tokenType == StringTok {
      AfterNameIgnoresRest(json, json2, cfg, l1, target, field);
    }
  }

  lemma {:induction false} AfterNameIgnoresRest(json: string, json2: string, cfg: Config, l1: Lexer, target: Option<Obj>, field: Option<FieldDesc>)
    requires SpanOk(json, l1) && l1.offset <= |json|
    requires field.Some? ==> target.Some?
    requires AfterName(json, cfg, l1, target, field).code == 0
    requires AfterName(json, cfg, l1, target, field).lexer.offset < |json|
    requires Agree(json, json2, AfterName(json, cfg, l1, target, field).lexer.offset)
    ensures SpanOk(json2, l1)
    ensures AfterName(json2, cfg, l1, target, field) == AfterName(json, cfg, l1, target, field)
    decreases |json| - l1.offset, 2
  {
    var n := AfterName(json, cfg, l1, target, field).lexer.offset;
    AgreeText(json, json2, l1, n);
    ScanIgnoresRest(json, json2, l1);
    var l2 := NextToken(json, l1).lexer;
    if l2.tokenType == Colon || l2.tokenType == Comma || l2.tokenType == RightBrace {
      if field.Some? && (l2.tokenType == Colon || !field.value.kind.ListKind? ||
                         ListAction(field.value.kind, StringTok, Text(json, l1), l2.boolValue, cfg.strict).Skip?) {
        if l2.tokenType != RightBrace || !field.value.kind.ListKind? {
          ValueStepIgnoresRest(json, json2, cfg, l2, target, field);
        }
      } else if field.None? && l2.tokenType == Colon {
        ValueStepIgnoresRest(json, json2, cfg, l2, target, field);
      }
    }
  }

  lemma {:induction false} ValueStepIgnoresRest(json: string, json2: string, cfg: Config, l2: Lexer, target: Option<Obj>, field: Option<FieldDesc>)
    requires 0 <= l2.offset <= |json|
    requires field.Some? ==> target.Some?
    requires ValueStep(json, cfg, l2, target, field).code == 0
    requires ValueStep(json, cfg, l2, target, field).lexer.offset < |json|
    requires Agree(json, json2, ValueStep(json, cfg, l2, target, field).lexer.offset)
    ensures ValueStep(json2, cfg, l2, target, field) == ValueStep(json, cfg, l2, target, field)
    decreases |json| - l2.offset, 1
  {
    var n := ValueStep(json, cfg, l2, target, field).lexer.offset;
    ScanIgnoresRest(json, json2, l2);
    var l3 := NextToken(json, l2).lexer;
    AgreeText(json, json2, l3, n);
    if l3.tokenType == LeftBrace {
      if field.None? {
        var r := ObjectLoop(json, cfg, l3, None);
        ObjectLoopIgnoresRest(json, json2, cfg, l3, None);
        AfterValueIgnoresRest(json, json2, cfg, r.lexer, target);
      } else if field.value.kind.Nested? {
        var r := ObjectLoop(json, cfg, l3, Some(EmptyInstance(field.value.kind.typeName)));
        ObjectLoopIgnoresRest(json, json2, cfg, l3, Some(EmptyInstance(field.value.kind.typeName)));
        AfterValueIgnoresRest(json, json2, cfg, r.lexer, Some(Assign(target.value, field.value.name, ObjV(r.target.value))));
      }
    } else if l3.tokenType == LeftBracket {
      if field.None? {
        var r := ListLoop(json, cfg, l3, [], None);
        ListLoopIgnoresRest(json, json2, cfg, l3, [], None);
        AfterValueIgnoresRest(json, json2, cfg, r.lexer, target);
      } else if NewInstance(field.value.kind).Some? {
        var child := NewInstance(field.value.kind).value;
        var r := ListLoop(json, cfg, l3, [], field);
        ListLoopIgnoresRest(json, json2, cfg, l3, [], field);
        var filled := if child.ListV? then ListV(r.items) else child;
        AfterValueIgnoresRest(json, json2, cfg, r.lexer, Some(Assign(target.value, field.value.name, filled)));
      }
    } else {
      assert ValueToken(json, cfg, l3, target, field) == ScalarValue(json, cfg, l3, target, field);
      assert ValueToken(json2, cfg, l3, target, field) == ScalarValue(json2, cfg, l3, target, field);
      if field.Some? {
        var f := field.value;
        match PropertyAction(f.kind, l3.tokenType, Text(json, l3), l3.boolValue, f.hasSetter, cfg.direct, cfg.strict)
        case Fail(c) =>
        case Skip => AfterValueIgnoresRest(json, json2, cfg, l3, target);
        case Write(v) => AfterValueIgnoresRest(json, json2, cfg, l3, Some(Assign(target.value, f.name, v)));
      } else {
        AfterValueIgnoresRest(json, json2, cfg, l3, target);
      }
    }
  }

  lemma {:induction false} AfterValueIgnoresRest(json: string, json2: string, cfg: Config, l4: Lexer, target: Option<Obj>)
    requires 0 <= l4.offset <= |json|
    requires AfterValue(json, cfg, l4, target).code == 0
    requires AfterValue(json, cfg, l4, target).lexer.offset < |json|
    requires Agree(json, json2, AfterValue(json, cfg, l4, target).lexer.offset)
    ensures AfterValue(json2, cfg, l4, target) == AfterValue(json, cfg, l4, target)
    decreases |json| - l4.offset, 0
  {
    ScanIgnoresRest(json, json2, l4);
    var l5 := NextToken(json, l4).lexer;
    if l5.tokenType == Comma {
      ObjectLoopIgnoresRest(json, json2, cfg, l5, target);
    }
  }

  lemma {:induction false} ListLoopIgnoresRest(json: string, json2: string, cfg: Config, lx: Lexer, items: seq<Value>, field: Option<FieldDesc>)
    requires 0 <= lx.offset <= |json|
    requires ListLoop(json, cfg, lx, items, field).code == 0
    requires ListLoop(json, cfg, lx, items, field).lexer.offset < |json|
    requires Agree(json, json2, ListLoop(json, cfg, lx, items, field).lexer.offset)
    ensures ListLoop(json2, cfg, lx, items, field) == ListLoop(json, cfg, lx, items, field)
    decreases |json| - lx.offset, 1
  {
    var n := ListLoop(json, cfg, lx, items, field).lexer.offset;
    ScanIgnoresRest(json, json2, lx);
    var l1 := NextToken(json, lx).lexer;
    if l1.tokenType == LeftBrace {
      if field.Some? && field.value.kind.ListKind? {
        var child := NewElement(field.value.kind.elem).value;
        var r := ObjectLoop(json, cfg, l1, Some(child));
        ObjectLoopIgnoresRest(json, json2, cfg, l1, Some(child));
        SeparatorIgnoresRest(json, json2, cfg, r.lexer, items + [ObjV(r.target.value)], field);
      } else if field.Some? {
        SeparatorIgnoresRest(json, json2, cfg, l1, items, field);
      }
    } else if IsScalarToken(l1.tokenType) {
      SeparatorIgnoresRest(json, json2, cfg, l1, items, field);
    }
  }

  lemma {:induction false} SeparatorIgnoresRest(json: string, json2: string, cfg: Config, lv: Lexer, items: seq<Value>, field: Option<FieldDesc>)
    requires 0 <= lv.offset <= |json|
    requires lv.offset == |json| || SpanOk(json, lv)
    requires Separator(json, cfg, lv, items, field).code == 0
    requires Separator(json, cfg, lv, items, field).lexer.offset < |json|
    requires Agree(json, json2, Separator(json, cfg, lv, items, field).lexer.offset)
    ensures lv.offset == |json2| || SpanOk(json2, lv)
    ensures Separator(json2, cfg, lv, items, field) == Separator(json, cfg, lv, items, field)
    decreases |json| - lv.offset, 0
  {
    var n := Separator(json, cfg, lv, items, field).lexer.offset;
    ScanIgnoresRest(json, json2, lv);
    var l2 := NextToken(json, lv).lexer;
    AgreeText(json, json2, lv, n);
    if l2.tokenType == Comma {
      var act := if field.Some? then ListAction(field.value.kind, lv.tokenType, Text(json, lv), l2.boolValue, cfg.strict) else Skip;
      var next := if act.Write? then items + [act.v] else items;
      ListLoopIgnoresRest(json, json2, cfg, l2, next, field);
    }
  }

  /** Once prepareStringToObject has succeeded at a closing token before the end of the buffer,
      the characters after that token are never read: any buffer with the same characters up to
      there decodes to the same result. */
  lemma {:induction false} PrepareIgnoresRest(json: string, json2: string, cfg: Config, lx: Lexer, obj: Obj)
    requires Prepare(json, cfg, lx, obj).code == 0
    requires Prepare(json, cfg, lx, obj).lexer.offset < |json|
    requires Agree(json, json2, Prepare(json, cfg, lx, obj).lexer.offset)
    ensures Prepare(json2, cfg, lx, obj) == Prepare(json, cfg, lx, obj)
  {
    var l0 := lx.(offset := 0);
    ScanIgnoresRest(json, json2, l0);
    ObjectLoopIgnoresRest(json, json2, cfg, NextToken(json, l0).lexer, Some(obj));
  }

  // ---------------------------------------------------------------------------------------
  // Behaviour of the decoder

  /** An empty or all-whitespace input leaves END_OF_BUFFER in errorCode and yields no object. */
  lemma {:induction false} BlankInputIsEndOfBuffer(json: string, cfg: Config, lx: Lexer, obj: Obj)
    requires Blank(json, 0, |json|)
    ensures Prepare(json, cfg, lx, obj) == Decoded(EndOfBuffer, lx.(offset := |json|), None)
  {
    OnlyBlankLeft(json, lx.(offset := 0));
  }

  /** A document whose first token is a structural character other than '{' is refused with
      FIND_FIRST_LEFT_BRACE. */
  lemma {:induction false} FirstTokenMustBeLeftBrace(json: string, cfg: Config, lx: Lexer, obj: Obj, k: int)
    requires 0 <= k < |json| && Blank(json, 0, k)
    requires IsStructural(json[k]) && json[k] != '{'
    ensures Prepare(json, cfg, lx, obj).code == FindFirstLeftBrace
    ensures Prepare(json, cfg, lx, obj).result == None
  {
    StructuralToken(json, lx.(offset := 0), k);
  }

  /** A '{' followed by nothing but whitespace decodes successfully and leaves the object as it
      was: the end of the buffer ends the object loop with status 0. */
  lemma {:induction false} TruncatedObjectSucceeds(json: string, cfg: Config, lx: Lexer, obj: Obj, k: int)
    requires 0 <= k < |json| && Blank(json, 0, k) && json[k] == '{'
    requires Blank(json, k + 1, |json|)
    ensures Prepare(json, cfg, lx, obj).code == 0
    ensures Prepare(json, cfg, lx, obj).result == Some(obj)
  {
    StructuralToken(json, lx.(offset := 0), k);
    var l1 := NextToken(json, lx.(offset := 0)).lexer;
    OnlyBlankLeft(json, l1);
  }

  /** A pair cut off after its ':' (such as {"a": at the end of the buffer) ends the object
      with status 0 and the target as it was: the read of the value meets the end of the buffer,
      which breaks out of the loop rather than failing. */
  lemma {:induction false} TruncatedValueSucceeds(json: string, cfg: Config, l2: Lexer, target: Option<Obj>, field: Option<FieldDesc>)
    requires 0 <= l2.offset <= |json| && Blank(json, l2.offset, |json|)
    requires field.Some? ==> target.Some?
    ensures ValueStep(json, cfg, l2, target, field) == ObjResult(0, l2.(offset := |json|), target)
  {
    OnlyBlankLeft(json, l2);
  }

  /** A text that opens with '{' has the object loop fill the instance from just after it. */
  lemma {:induction false} OpensWithBrace(json: string, cfg: Config, lx: Lexer, obj: Obj)
    requires 0 < |json| && json[0] == '{'
    ensures var r := ObjectLoop(json, cfg, lx.(offset := 1, tokenType := LeftBrace, begin := 0, end := 0), Some(obj));
            Prepare(json, cfg, lx, obj) == if r.code != 0 then Decoded(r.code, r.lexer, None) else Decoded(0, r.lexer, r.target)
  {
    StructuralToken(json, lx.(offset := 0), 0);
  }

  /** A declared name followed by ':' goes on to read the value for that field. */
  lemma {:induction false} DeclaredNameThenColon(json: string, cfg: Config, lx: Lexer, o: Obj, f: FieldDesc, q: int)
    requires 0 <= lx.offset < q && q + 1 < |json|
    requires json[lx.offset] == '"' && json[q] == '"' && json[q + 1] == ':'
    requires forall p :: lx.offset < p < q ==> json[p] != '"'
    requires Lookup(FieldsOf(cfg.table, o.typeName), json[lx.offset + 1 .. q]) == Some(f)
    ensures ObjectLoop(json, cfg, lx, Some(o))
         == ValueStep(json, cfg, lx.(offset := q + 2, tokenType := Colon, begin := q + 1, end := q + 1), Some(o), Some(f))
  {
    var k := lx.offset;
    StringToken(json, lx, k, q);
    StructuralToken(json, lx.(offset := q + 1, tokenType := StringTok, begin := k + 1, end := q - 1), q + 1);
  }

  /** A string value is bound by setObjectProperty with the text between its quotes. */
  lemma {:induction false} StringValueBound(json: string, cfg: Config, l2: Lexer, target: Option<Obj>, field: Option<FieldDesc>, q: int)
    requires 0 <= l2.offset < q < |json| && json[l2.offset] == '"' && json[q] == '"'
    requires forall p :: l2.offset < p < q ==> json[p] != '"'
    requires field.Some? ==> target.Some?
    ensures var l3 := l2.(offset := q + 1, tokenType := StringTok, begin := l2.offset + 1, end := q - 1);
            Text(json, l3) == json[l2.offset + 1 .. q]
            && ValueStep(json, cfg, l2, target, field) == ScalarValue(json, cfg, l3, target, field)
  {
    StringToken(json, l2, l2.offset, q);
    var l3 := l2.(offset := q + 1, tokenType := StringTok, begin := l2.offset + 1, end := q - 1);
    assert ValueStep(json, cfg, l2, target, field) == ValueToken(json, cfg, l3, target, field);
  }

  /** A '}' after a value ends the object with status 0. */
  lemma {:induction false} ClosingBraceAfterValue(json: string, cfg: Config, l4: Lexer, target: Option<Obj>)
    requires 0 <= l4.offset < |json| && json[l4.offset] == '}'
    ensures AfterValue(json, cfg, l4, target)
         == ObjResult(0, l4.(offset := l4.offset + 1, tokenType := RightBrace, begin := l4.offset, end := l4.offset), target)
  {
    StructuralToken(json, l4, l4.offset);
  }

  /** A name right after a value, with no ',' between them, is EXPECT_COLON_AFTER_NAME. */
  lemma {:induction false} NameAfterValueRejected(json: string, cfg: Config, l4: Lexer, target: Option<Obj>, q: int)
    requires 0 <= l4.offset < q < |json| && json[l4.offset] == '"' && json[q] == '"'
    requires forall p :: l4.offset < p < q ==> json[p] != '"'
    ensures AfterValue(json, cfg, l4, target)
         == ObjResult(ExpectColonAfterName, l4.(offset := q + 1, tokenType := StringTok, begin := l4.offset + 1, end := q - 1), target)
  {
    StringToken(json, l4, l4.offset, q);
  }

  /** "{}" is not an empty object: '}' is read where a name is expected. It fails with
      NAME_NOT_FOUND_IN_OBJECT when the policy is strict and the type has no field named "}",
      and with NAME_INVALID otherwise. */
  lemma {:induction false} EmptyObjectRejected(json: string, cfg: Config, lx: Lexer, obj: Obj, k: int, m: int)
    requires 0 <= k < m < |json| && Blank(json, 0, k) && json[k] == '{'
    requires Blank(json, k + 1, m) && json[m] == '}'
    ensures Prepare(json, cfg, lx, obj).code
         == if cfg.strict && Lookup(FieldsOf(cfg.table, obj.typeName), "}").None?
            then NameNotFoundInObject else NameInvalid
    ensures Prepare(json, cfg, lx, obj).result == None
  {
    StructuralToken(json, lx.(offset := 0), k);
    var l1 := NextToken(json, lx.(offset := 0)).lexer;
    StructuralToken(json, l1, m);
    var l2 := NextToken(json, l1).lexer;
    assert Text(json, l2) == [json[m]] == "}";
  }

  /** Inside an object, a name must be followed by ':' (or ',', '}' and ']' in the forms the
      loop also accepts); a '{' or '[' there is EXPECT_COLON_AFTER_NAME. */
  lemma {:induction false} MissingColonAfterName(json: string, cfg: Config, l1: Lexer, target: Option<Obj>, field: Option<FieldDesc>, k: int)
    requires SpanOk(json, l1) && l1.offset <= k < |json| && Blank(json, l1.offset, k)
    requires field.Some? ==> target.Some?
    requires json[k] == '{' || json[k] == '['
    ensures AfterName(json, cfg, l1, target, field).code == ExpectColonAfterName
  {
    StructuralToken(json, l1, k);
  }

  /** So is a second name straight after the first. */
  lemma {:induction false} NameAfterNameRejected(json: string, cfg: Config, l1: Lexer, target: Option<Obj>, field: Option<FieldDesc>, k: int, q: int)
    requires SpanOk(json, l1) && l1.offset <= k < q < |json| && Blank(json, l1.offset, k)
    requires field.Some? ==> target.Some?
    requires json[k] == '"' && json[q] == '"' && (forall p :: k < p < q ==> json[p] != '"')
    ensures AfterName(json, cfg, l1, target, field)
         == ObjResult(ExpectColonAfterName, l1.(offset := q + 1, tokenType := StringTok, begin := k + 1, end := q - 1), target)
  {
    StringToken(json, l1, k, q);
  }

  /** After a value only ',', '}' and ']' may follow; any other token is reported with
      EXPECT_COLON_AFTER_NAME. */
  lemma {:induction false} BadTokenAfterValue(json: string, cfg: Config, l4: Lexer, target: Option<Obj>, k: int)
    requires 0 <= l4.offset <= k < |json| && Blank(json, l4.offset, k)
    requires json[k] == ':' || json[k] == '{' || json[k] == '['
    ensures AfterValue(json, cfg, l4, target) == ObjResult(ExpectColonAfterName, l4.(offset := k + 1, tokenType := StructuralKind(json[k]), begin := k, end := k), target)
  {
    StructuralToken(json, l4, k);
  }

  /** A name that the target's type does not declare fails with NAME_NOT_FOUND_IN_OBJECT under
      the strict policy; otherwise the pair is read with no field, so its value is skipped. */
  lemma {:induction false} UnknownName(json: string, cfg: Config, lx: Lexer, o: Obj, k: int, q: int)
    requires 0 <= lx.offset <= k < q < |json| && Blank(json, lx.offset, k)
    requires json[k] == '"' && json[q] == '"' && (forall p :: k < p < q ==> json[p] != '"')
    requires Lookup(FieldsOf(cfg.table, o.typeName), json[k + 1 .. q]).None?
    ensures var l1 := lx.(offset := q + 1, tokenType := StringTok, begin := k + 1, end := q - 1);
            ObjectLoop(json, cfg, lx, Some(o))
              == if cfg.strict then ObjResult(NameNotFoundInObject, l1, Some(o))
                 else AfterName(json, cfg, l1, Some(o), None)
  {
    StringToken(json, lx, k, q);
  }

  /** A value skipped for want of a field leaves the target unchanged. */
  lemma {:induction false} SkippedValueChangesNothing(json: string, cfg: Config, l2: Lexer, target: Option<Obj>, k: int, q: int)
    requires 0 <= l2.offset <= k < q < |json| && Blank(json, l2.offset, k)
    requires json[k] == '"' && json[q] == '"' && (forall p :: k < p < q ==> json[p] != '"')
    ensures ValueStep(json, cfg, l2, target, None)
         == AfterValue(json, cfg, l2.(offset := q + 1, tokenType := StringTok, begin := k + 1, end := q - 1), target)
  {
    StringToken(json, l2, k, q);
    var l3 := l2.(offset := q + 1, tokenType := StringTok, begin := k + 1, end := q - 1);
    assert ValueStep(json, cfg, l2, target, None) == ValueToken(json, cfg, l3, target, None);
    assert ValueToken(json, cfg, l3, target, None) == ScalarValue(json, cfg, l3, target, None);
  }

  /** A string value for a String field is stored when the field has a setter or direct
      access is enabled, and ignored otherwise. */
  lemma {:induction false} StringValueStored(json: string, cfg: Config, l2: Lexer, o: Obj, f: FieldDesc, k: int, q: int)
    requires 0 <= l2.offset <= k < q < |json| && Blank(json, l2.offset, k)
    requires json[k] == '"' && json[q] == '"' && (forall p :: k < p < q ==> json[p] != '"')
    requires f.kind == StringKind
    ensures var l3 := l2.(offset := q + 1, tokenType := StringTok, begin := k + 1, end := q - 1);
            ValueStep(json, cfg, l2, Some(o), Some(f))
              == AfterValue(json, cfg, l3, if f.hasSetter || cfg.direct
                                           then Some(Assign(o, f.name, Str(json[k + 1 .. q]))) else Some(o))
  {
    StringToken(json, l2, k, q);
    var l3 := l2.(offset := q + 1, tokenType := StringTok, begin := k + 1, end := q - 1);
    assert ValueStep(json, cfg, l2, Some(o), Some(f)) == ValueToken(json, cfg, l3, Some(o), Some(f));
    assert ValueToken(json, cfg, l3, Some(o), Some(f)) == ScalarValue(json, cfg, l3, Some(o), Some(f));
    assert Text(json, l3) == json[k + 1 .. q];
  }

  /** A null value for a field that has a setter fails with EXCEPTION and leaves the target as
      it was, whatever the field's type: the setter is invoked with no argument. */
  lemma {:induction false} NullThroughSetterFails(json: string, cfg: Config, l2: Lexer, o: Obj, f: FieldDesc, k: int)
    requires 0 <= l2.offset <= k && k + 4 <= |json| && Blank(json, l2.offset, k)
    requires json[k .. k + 4] == "null"
    requires f.hasSetter
    ensures ValueStep(json, cfg, l2, Some(o), Some(f))
         == ObjResult(Exception, l2.(offset := k + 4, tokenType := NullTok, begin := k, end := k + 3, boolValue := true), Some(o))
  {
    KeywordToken(json, l2, k, "null");
    var l3 := l2.(offset := k + 4, tokenType := NullTok, begin := k, end := k + 3, boolValue := true);
    assert ValueStep(json, cfg, l2, Some(o), Some(f)) == ValueToken(json, cfg, l3, Some(o), Some(f));
    assert ValueToken(json, cfg, l3, Some(o), Some(f)) == ScalarValue(json, cfg, l3, Some(o), Some(f));
  }

  /** A nested object value is stored into its field directly once decoded, whether or not the
      field has a setter and whether or not direct access is enabled. */
  lemma {:induction false} NestedObjectStoredDirectly(json: string, cfg: Config, l2: Lexer, o: Obj, f: FieldDesc, k: int)
    requires 0 <= l2.offset <= k < |json| && Blank(json, l2.offset, k) && json[k] == '{'
    requires f.kind.Nested?
    ensures var l3 := l2.(offset := k + 1, tokenType := LeftBrace, begin := k, end := k);
            var r := ObjectLoop(json, cfg, l3, Some(EmptyInstance(f.kind.typeName)));
            r.code == 0 ==>
              (ValueStep(json, cfg, l2, Some(o), Some(f))
               == AfterValue(json, cfg, r.lexer, Some(Assign(o, f.name, ObjV(r.target.value)))))
  {
    StructuralToken(json, l2, k);
  }

  /** A '{' element of a list of objects is decoded into a fresh instance of the element type,
      which is appended after the elements already read before the separator is looked at. */
  lemma {:induction false} ObjectElementAppended(json: string, cfg: Config, lx: Lexer, items: seq<Value>, f: FieldDesc, k: int)
    requires 0 <= lx.offset <= k < |json| && Blank(json, lx.offset, k) && json[k] == '{'
    requires f.kind.ListKind? && f.kind.elem.ElemObject?
    ensures var l1 := lx.(offset := k + 1, tokenType := LeftBrace, begin := k, end := k);
            var r := ObjectLoop(json, cfg, l1, Some(EmptyInstance(f.kind.elem.typeName)));
            ListLoop(json, cfg, lx, items, Some(f))
              == if r.code != 0 then ListResult(r.code, r.lexer, items)
                 else Separator(json, cfg, r.lexer, items + [ObjV(r.target.value)], Some(f))
  {
    StructuralToken(json, lx, k);
  }

  /** Under the strict policy a list of objects fails with PROPERTY_TYPE_NOT_MATCH at the
      separator after an object element: the element's kind handed to addListObject is that of the
      '}' ending the object, which the object branch of the table does not accept. */
  lemma {:induction false} StrictObjectListFails(json: string, cfg: Config, lv: Lexer, items: seq<Value>, f: FieldDesc, k: int)
    requires SpanOk(json, lv) && lv.tokenType == RightBrace
    requires lv.offset <= k < |json| && Blank(json, lv.offset, k) && (json[k] == ',' || json[k] == ']')
    requires f.kind.ListKind? && f.kind.elem.ElemObject? && cfg.strict
    ensures Separator(json, cfg, lv, items, Some(f)).code == PropertyTypeNotMatch
  {
    StructuralToken(json, lv, k);
  }

  /** "[]" is not an empty list: ']' is read where an element is expected, which is
      UNEXPECT_TOKEN_AFTER_LEFT_BRACE. So are ':' and ',' there. */
  lemma {:induction false} EmptyListRejected(json: string, cfg: Config, lx: Lexer, items: seq<Value>, field: Option<FieldDesc>, k: int)
    requires 0 <= lx.offset <= k < |json| && Blank(json, lx.offset, k)
    requires json[k] == ']' || json[k] == ':' || json[k] == ','
    ensures ListLoop(json, cfg, lx, items, field).code == UnexpectTokenAfterLeftBrace
  {
    StructuralToken(json, lx, k);
  }

  /** null is not accepted as a list element. */
  lemma {:induction false} NullElementRejected(json: string, cfg: Config, lx: Lexer, items: seq<Value>, field: Option<FieldDesc>, k: int)
    requires 0 <= lx.offset <= k && k + 4 <= |json| && Blank(json, lx.offset, k)
    requires json[k .. k + 4] == "null"
    ensures ListLoop(json, cfg, lx, items, field).code == UnexpectTokenAfterLeftBrace
  {
    KeywordToken(json, lx, k, "null");
  }

  /** A string element of a List<String> is appended after the elements already read, when the
      ',' that follows it is seen. */
  lemma {:induction false} StringElementAppended(json: string, cfg: Config, lv: Lexer, items: seq<Value>, f: FieldDesc, k: int)
    requires SpanOk(json, lv) && lv.tokenType == StringTok
    requires lv.offset <= k < |json| && Blank(json, lv.offset, k) && json[k] == ','
    requires f.kind == ListKind(ElemString)
    ensures Separator(json, cfg, lv, items, Some(f))
         == ListLoop(json, cfg, lv.(offset := k + 1, tokenType := Comma, begin := k, end := k),
                     items + [Str(Text(json, lv))], Some(f))
  {
    StructuralToken(json, lv, k);
  }

  /** A whitespace-only remainder ends a list with status 0 and the elements read so far. */
  lemma {:induction false} TruncatedListSucceeds(json: string, cfg: Config, lx: Lexer, items: seq<Value>, field: Option<FieldDesc>)
    requires 0 <= lx.offset <= |json| && Blank(json, lx.offset, |json|)
    ensures ListLoop(json, cfg, lx, items, field) == ListResult(0, lx.(offset := |json|), items)
  {
    OnlyBlankLeft(json, lx);
  }
}
