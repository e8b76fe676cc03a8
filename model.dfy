/**
  The property model and the value binder of OkJson: the descriptor table that stands for Java
  reflection, target objects as maps from field name to value, Java's number conversions, and the
  two compatibility tables of setObjectProperty (OkJson.java:416-750) and addListObject
  (OkJson.java:238-334) as pure functions.
 */
module Model {
  import opened Common
  import opened Tokens

  datatype IntWidth = W8 | W16 | W32 | W64

  /** Element type of an ArrayList or LinkedList field (its single type argument). */
  datatype ElemKind =
    | ElemString
    | ElemBoxedInt(width: IntWidth)  // Byte, Short, Integer, Long
    | ElemBoxedDecimal               // Float, Double
    | ElemBoxedBool                  // Boolean
    | ElemObject(typeName: string)   // any other class, instantiated for a '{' element

  /** Declared type of a field. ArrayList and LinkedList are handled alike, so one ListKind
      stands for both. */
  datatype Kind =
    | StringKind
    | BoxedInt(width: IntWidth)   // Byte, Short, Integer, Long
    | PrimInt(width: IntWidth)    // byte, short, int, long
    | BoxedDecimal                // Float, Double
    | PrimDecimal                 // float, double
    | BoxedBool                   // Boolean
    | PrimBool                    // boolean
    | ListKind(elem: ElemKind)
    | Nested(typeName: string)

  /** One declared field: its name, its type, whether a setter setX(T) is declared, and whether
      a method getX(T) is declared (the serializer looks a getter up with the field's type as a
      parameter type, OkJson.java:1041). */
  datatype FieldDesc = FieldDesc(name: string, kind: Kind, hasSetter: bool, hasGetter: bool)

  /** Declared fields per class name, in declaration order. */
  type Table = map<string, seq<FieldDesc>>

  /** The configuration of an OkJson instance: strictPolicyEnable, directAccessPropertyEnable,
      formatCompactEnable and the descriptor table standing for reflection. */
  datatype Config = Config(strict: bool, direct: bool, compact: bool, table: Table)

  /** A field's value. Decimal values are kept as the text of their token. */
  datatype Value =
    | Null
    | Str(s: string)
    | Int(i: int)
    | Dec(text: string)
    | Bool(b: bool)
    | ObjV(obj: Obj)
    | ListV(items: seq<Value>)

  /** An instance: its class name and the fields assigned so far. A field absent from the map
      still holds the default value Java gives it (DefaultValue). */
  datatype Obj = Obj(typeName: string, fields: map<string, Value>)

  predicate IsScalar(k: Kind) { !k.ListKind? && !k.Nested? }

  predicate IsBoxedOrString(k: Kind)
  {
    k.StringKind? || k.BoxedInt? || k.BoxedDecimal? || k.BoxedBool?
  }

  function DefaultValue(k: Kind): Value
  {
    match k
    case PrimInt(_) => Int(0)
    case PrimDecimal => Dec("0.0")
    case PrimBool => Bool(false)
    case _ => Null
  }

  function FieldsOf(table: Table, typeName: string): seq<FieldDesc>
  {
    if typeName in table then table[typeName] else []
  }

  /** The field called name (Java's HashMap from name to Field). */
  function Lookup(fields: seq<FieldDesc>, name: string): (r: Option<FieldDesc>)
    ensures r.Some? ==> r.value in fields && r.value.name == name
    ensures r.None? ==> forall f :: f in fields ==> f.name != name
  {
    if |fields| == 0 then None
    else if fields[0].name == name then Some(fields[0])
    else Lookup(fields[1..], name)
  }

  function FieldValue(o: Obj, f: FieldDesc): Value
  {
    if f.name in o.fields then o.fields[f.name] else DefaultValue(f.kind)
  }

  function Assign(o: Obj, name: string, v: Value): (r: Obj)
    ensures r.typeName == o.typeName && name in r.fields && r.fields[name] == v
    ensures forall n :: n in o.fields && n != name ==> n in r.fields && r.fields[n] == o.fields[n]
    ensures r.fields.Keys == o.fields.Keys + {name}
  {
    o.(fields := o.fields[name := v])
  }

  /** A fresh instance of a class: all fields at their defaults. */
  function EmptyInstance(typeName: string): Obj
  {
    Obj(typeName, map[])
  }

  // ---------------------------------------------------------------------------------------
  // Java's integer conversions

  function MinOf(w: IntWidth): int
  {
    match w
    case W8 => -0x80
    case W16 => -0x8000
    case W32 => -0x8000_0000
    case W64 => -0x8000_0000_0000_0000
  }

  function MaxOf(w: IntWidth): int
  {
    match w
    case W8 => 0x7F
    case W16 => 0x7FFF
    case W32 => 0x7FFF_FFFF
    case W64 => 0x7FFF_FFFF_FFFF_FFFF
  }

  predicate AllDigits(s: string) { forall i :: 0 <= i < |s| ==> IsDigit(s[i]) }

  function DigitValue(c: char): nat
    requires IsDigit(c)
  {
    (c as int) - ('0' as int)
  }

  /** The value of a run of decimal digits, most significant first. */
  function DigitsValue(s: string): nat
    requires AllDigits(s)
  {
    if |s| == 0 then 0 else DigitsValue(s[..|s| - 1]) * 10 + DigitValue(s[|s| - 1])
  }

  /** The text after an optional leading sign. */
  function Unsigned(text: string): string
  {
    if |text| > 0 && (text[0] == '-' || text[0] == '+') then text[1..] else text
  }

  /** Byte.valueOf, Short.valueOf, Integer.valueOf and Long.valueOf in radix 10: a sign, then at
      least one digit; text of another shape, or a value outside lo..hi, is Java's
      NumberFormatException (None). */
  function ParseInteger(text: string, lo: int, hi: int): (r: Option<int>)
    ensures r.Some? ==> lo <= r.value <= hi
    ensures r.Some? ==> |Unsigned(text)| > 0 && AllDigits(Unsigned(text))
    ensures r.Some? && |text| > 0 && text[0] == '-' ==> r.value <= 0
    ensures r.Some? && !(|text| > 0 && text[0] == '-') ==> r.value >= 0
  {
    var digits := Unsigned(text);
    if |digits| == 0 || !AllDigits(digits) then None
    else
      var v: int := if text[0] == '-' then -(DigitsValue(digits) as int) else DigitsValue(digits);
      if lo <= v <= hi then Some(v) else None
  }

  /** Integer.byteValue and Integer.shortValue: keep the low bits of a 32-bit value, read as a
      signed number of the given width. */
  function Narrow(v: int, w: IntWidth): (r: int)
    requires w == W8 || w == W16
    ensures MinOf(w) <= r <= MaxOf(w)
    ensures (r - v) % (MaxOf(w) - MinOf(w) + 1) == 0
    ensures MinOf(w) <= v <= MaxOf(w) ==> r == v
  {
    var span := MaxOf(w) - MinOf(w) + 1;
    (v - MinOf(w)) % span + MinOf(w)
  }

  /** Float.valueOf and Double.valueOf accept a text made of a sign, digits and dots exactly when
      it has at most one dot and at least one digit; the texts of DECIMAL tokens are of that
      alphabet. */
  predicate DecimalSyntax(text: string)
  {
    var body := Unsigned(text);
    (forall i :: 0 <= i < |body| ==> IsDigit(body[i]) || body[i] == '.')
    && multiset(body)['.'] <= 1
    && exists i :: 0 <= i < |body| && IsDigit(body[i])
  }

  /** Boolean.valueOf(String): true exactly for "true" in any letter case. */
  predicate BooleanValueOf(text: string)
  {
    |text| == 4 && Lower(text[0]) == 't' && Lower(text[1]) == 'r'
    && Lower(text[2]) == 'u' && Lower(text[3]) == 'e'
  }

  function Lower(c: char): char
  {
    if 'A' <= c <= 'Z' then (c as int + 32) as char else c
  }

  // ---------------------------------------------------------------------------------------
  // The binder's tables

  /** What binding one value token does to a property or a list. */
  datatype Action = Write(v: Value) | Skip | Fail(code: int)

  /** The token kinds a declared kind accepts, as the property model intends them: STRING for
      String, INTEGER for integer kinds, DECIMAL for decimal kinds, BOOL for booleans, and NULL
      for every kind that can hold null. */
  predicate Accepts(k: Kind, tok: TokenType)
  {
    match tok
    case StringTok => k.StringKind?
    case IntegerTok => k.BoxedInt? || k.PrimInt?
    case DecimalTok => k.BoxedDecimal? || k.PrimDecimal?
    case BoolTok => k.BoxedBool? || k.PrimBool?
    case NullTok => !k.PrimInt? && !k.PrimDecimal? && !k.PrimBool?
    case _ => false
  }

  /** A primitive field: byte, short, int, long, float, double or boolean. */
  predicate IsPrimitive(k: Kind) { k.PrimInt? || k.PrimDecimal? || k.PrimBool? }

  /** setObjectProperty (OkJson.java:416-750). A converted value reaches the field through its
      setter, or directly when direct access is enabled; a NULL token is handed to the setter as
      `method.invoke(object, null)`, which passes no argument at all and so always throws. */
  function PropertyAction(k: Kind, tok: TokenType, text: string, boolValue: bool,
                          hasSetter: bool, direct: bool, strict: bool): (r: Action)
    // Only a property with a setter or with direct access is ever written.
    ensures r.Write? ==> hasSetter || direct
    // A String or boxed property whose token kind does not match is left alone, even when strict.
    ensures IsBoxedOrString(k) && !Accepts(k, tok) ==> r == Skip
    // PROPERTY_TYPE_NOT_MATCH comes only from the final fallback and only under the strict policy.
    ensures r == Fail(PropertyTypeNotMatch)
        <==> strict && !IsBoxedOrString(k) && tok != NullTok && !Accepts(k, tok)
    // The only other failure is a conversion or a write that Java rejects with an exception.
    ensures r.Fail? ==> r.code == PropertyTypeNotMatch || r.code == Exception
    // A non-null token that the property accepts is written, or fails conversion.
    ensures tok != NullTok && (hasSetter || direct) && Accepts(k, tok) ==> r.Write? || r == Fail(Exception)
    // NULL: through a setter it is always an exception; directly it is stored unless the field is
    // primitive; with neither it is ignored.
    ensures tok == NullTok && hasSetter ==> r == Fail(Exception)
    ensures tok == NullTok && !hasSetter && direct
        ==> r == (if IsPrimitive(k) then Fail(Exception) else Write(Null))
    ensures tok == NullTok && !hasSetter && !direct ==> r == Skip
  {
    var writable := hasSetter || direct;
    var put := (v: Value) => if writable then Write(v) else Skip;
    match k
    case StringKind =>
      if tok == StringTok then put(Str(text))
      else if tok == NullTok then NullAction(k, hasSetter, direct)
      else Skip
    case BoxedInt(w) =>
      if tok == IntegerTok then
        match ParseInteger(text, MinOf(w), MaxOf(w))
        case None => Fail(Exception)
        case Some(n) => put(Int(n))
      else if tok == NullTok then NullAction(k, hasSetter, direct)
      else Skip
    case BoxedDecimal =>
      if tok == DecimalTok then (if DecimalSyntax(text) then put(Dec(text)) else Fail(Exception))
      else if tok == NullTok then NullAction(k, hasSetter, direct)
      else Skip
    case BoxedBool =>
      if tok == BoolTok then put(Bool(BooleanValueOf(text)))
      else if tok == NullTok then NullAction(k, hasSetter, direct)
      else Skip
    case PrimInt(w) =>
      if tok == IntegerTok then
        // byte, short and int go through Integer.valueOf, long through Long.valueOf
        var wide := if w == W64 then W64 else W32;
        match ParseInteger(text, MinOf(wide), MaxOf(wide))
        case None => Fail(Exception)
        case Some(n) => put(Int(if w == W8 || w == W16 then Narrow(n, w) else n))
      else Fallback(k, tok, hasSetter, direct, strict)
    case PrimDecimal =>
      if tok == DecimalTok then (if DecimalSyntax(text) then put(Dec(text)) else Fail(Exception))
      else Fallback(k, tok, hasSetter, direct, strict)
    case PrimBool =>
      if tok == BoolTok then put(Bool(boolValue)) else Fallback(k, tok, hasSetter, direct, strict)
    case _ => Fallback(k, tok, hasSetter, direct, strict)
  }

  /** The value setObjectProperty stores, kind by kind (OkJson.java:418-731): the text of a
      string, the integer Integer.valueOf or Long.valueOf reads (narrowed for byte and short),
      the decimal text, Boolean.valueOf of the text for a Boolean and the lexer's flag for a
      boolean; a number the parse rejects is an exception. */
  lemma PropertyActionWrites(k: Kind, tok: TokenType, text: string, boolValue: bool,
                             hasSetter: bool, direct: bool, strict: bool)
    ensures var r := PropertyAction(k, tok, text, boolValue, hasSetter, direct, strict);
            k.StringKind? && tok == StringTok && (hasSetter || direct) ==> r == Write(Str(text))
    ensures var r := PropertyAction(k, tok, text, boolValue, hasSetter, direct, strict);
            (k.BoxedInt? || (k.PrimInt? && (k.width == W32 || k.width == W64))) && tok == IntegerTok
            ==> var p := ParseInteger(text, MinOf(k.width), MaxOf(k.width));
                r == (if p.None? then Fail(Exception) else if hasSetter || direct then Write(Int(p.value)) else Skip)
    ensures var r := PropertyAction(k, tok, text, boolValue, hasSetter, direct, strict);
            k.PrimInt? && (k.width == W8 || k.width == W16) && tok == IntegerTok
            ==> var p := ParseInteger(text, MinOf(W32), MaxOf(W32));
                r == (if p.None? then Fail(Exception)
                      else if hasSetter || direct then Write(Int(Narrow(p.value, k.width))) else Skip)
    ensures var r := PropertyAction(k, tok, text, boolValue, hasSetter, direct, strict);
            (k.BoxedDecimal? || k.PrimDecimal?) && tok == DecimalTok
            ==> r == (if !DecimalSyntax(text) then Fail(Exception) else if hasSetter || direct then Write(Dec(text)) else Skip)
    ensures var r := PropertyAction(k, tok, text, boolValue, hasSetter, direct, strict);
            k.BoxedBool? && tok == BoolTok && (hasSetter || direct) ==> r == Write(Bool(BooleanValueOf(text)))
    ensures var r := PropertyAction(k, tok, text, boolValue, hasSetter, direct, strict);
            k.PrimBool? && tok == BoolTok && (hasSetter || direct) ==> r == Write(Bool(boolValue))
  {
  }

  /** The NULL branches of setObjectProperty (OkJson.java:433-446 and 733-743). With a setter,
      `method.invoke(object, null)` passes a null argument array to a one-parameter method and
      throws; Field.set throws for a primitive field. */
  function NullAction(k: Kind, hasSetter: bool, direct: bool): Action
  {
    if hasSetter then Fail(Exception)
    else if direct then (if IsPrimitive(k) then Fail(Exception) else Write(Null))
    else Skip
  }

  /** The last two branches of setObjectProperty (OkJson.java:733-747), reached by primitive,
      list and object fields whose token kind did not match. */
  function Fallback(k: Kind, tok: TokenType, hasSetter: bool, direct: bool, strict: bool): Action
  {
    if tok == NullTok then NullAction(k, hasSetter, direct)
    else if strict then Fail(PropertyTypeNotMatch)
    else Skip
  }

  /** setObjectProperty with its NULL branches as evidently intended: the setter receives null
      as its one argument, so NULL reaches the field alike through a setter and directly. The
      decoder keeps the branches as written (PropertyAction). */
  function IntendedPropertyAction(k: Kind, tok: TokenType, text: string, boolValue: bool,
                                  hasSetter: bool, direct: bool, strict: bool): (r: Action)
    // NULL is stored in every writable field that can hold it, and a setter does not change that.
    ensures tok == NullTok && (hasSetter || direct) && !IsPrimitive(k) ==> r == Write(Null)
    ensures tok == NullTok && (hasSetter || direct) && IsPrimitive(k) ==> r == Fail(Exception)
    ensures r.Write? ==> hasSetter || direct
    // Every other token is bound exactly as written.
    ensures tok != NullTok ==> r == PropertyAction(k, tok, text, boolValue, hasSetter, direct, strict)
  {
    PropertyAction(k, tok, text, boolValue, false, hasSetter || direct, strict)
  }

  /** The token kinds a list element type accepts. */
  predicate ElemAccepts(e: ElemKind, tok: TokenType)
  {
    match e
    case ElemString => tok == StringTok
    case ElemBoxedInt(_) => tok == IntegerTok
    case ElemBoxedDecimal => tok == DecimalTok
    case ElemBoxedBool => tok == BoolTok
    case ElemObject(_) => false
  }

  /** addListObject (OkJson.java:238-334): what appending one scanned element does. */
  function ListAction(k: Kind, tok: TokenType, text: string, boolValue: bool, strict: bool): (r: Action)
    // A field that is not an ArrayList or LinkedList is a type mismatch under the strict policy only.
    ensures !k.ListKind? ==> r == (if strict then Fail(PropertyTypeNotMatch) else Skip)
    // Only a matching scalar is appended; null and other kinds append nothing.
    ensures r.Write? ==> k.ListKind? && ElemAccepts(k.elem, tok)
    ensures k.ListKind? && ElemAccepts(k.elem, tok) ==> r.Write? || r == Fail(Exception)
    ensures tok == NullTok ==> !r.Write? && (k.ListKind? ==> r == Skip)
    // A list of objects is a mismatch under the strict policy for any non-null element token.
    ensures k.ListKind? && k.elem.ElemObject? && tok != NullTok ==> r == (if strict then Fail(PropertyTypeNotMatch) else Skip)
    ensures r.Fail? ==> r.code == PropertyTypeNotMatch || r.code == Exception
    // The element appended, element type by element type.
    ensures k == ListKind(ElemString) && tok == StringTok ==> r == Write(Str(text))
    ensures k.ListKind? && k.elem.ElemBoxedInt? && tok == IntegerTok
        ==> var p := ParseInteger(text, MinOf(k.elem.width), MaxOf(k.elem.width));
            r == (if p.None? then Fail(Exception) else Write(Int(p.value)))
    ensures k == ListKind(ElemBoxedDecimal) && tok == DecimalTok
        ==> r == (if DecimalSyntax(text) then Write(Dec(text)) else Fail(Exception))
    ensures k == ListKind(ElemBoxedBool) && tok == BoolTok ==> r == Write(Bool(boolValue))
  {
    if !k.ListKind? then (if strict then Fail(PropertyTypeNotMatch) else Skip)
    else
      match k.elem
      case ElemString => if tok == StringTok then Write(Str(text)) else Skip
      case ElemBoxedInt(w) =>
        if tok == IntegerTok then
          match ParseInteger(text, MinOf(w), MaxOf(w))
          case None => Fail(Exception)
          case Some(n) => Write(Int(n))
        else Skip
      case ElemBoxedDecimal =>
        if tok == DecimalTok then (if DecimalSyntax(text) then Write(Dec(text)) else Fail(Exception))
        else Skip
      case ElemBoxedBool => if tok == BoolTok then Write(Bool(boolValue)) else Skip
      case ElemObject(_) =>
        if tok == NullTok then Skip
        else if strict then Fail(PropertyTypeNotMatch)
        else Skip
  }

  // ---------------------------------------------------------------------------------------
  // Decimal rendering of integers, as Java's Integer.toString and Long.toString write them

  function DigitChar(d: nat): char
    requires d < 10
  {
    ('0' as int + d) as char
  }

  function NatDigits(n: nat): (s: string)
    ensures |s| > 0 && AllDigits(s)
    decreases n
  {
    if n < 10 then [DigitChar(n)] else NatDigits(n / 10) + [DigitChar(n % 10)]
  }

  function IntToString(v: int): string
  {
    if v < 0 then "-" + NatDigits(-v) else NatDigits(v)
  }

  lemma {:induction false} NatDigitsValue(n: nat)
    ensures DigitsValue(NatDigits(n)) == n
    decreases n
  {
    var s := NatDigits(n);
    if n >= 10 {
      NatDigitsValue(n / 10);
      assert s[..|s| - 1] == NatDigits(n / 10);
    }
  }

  /** Reading back the decimal text of an integer gives the integer, whenever it fits the width. */
  lemma ParseRendered(v: int, w: IntWidth)
    requires MinOf(w) <= v <= MaxOf(w)
    ensures ParseInteger(IntToString(v), MinOf(w), MaxOf(w)) == Some(v)
  {
    if v < 0 {
      NatDigitsValue(-v);
      assert Unsigned(IntToString(v)) == NatDigits(-v);
    } else {
      NatDigitsValue(v);
      var s := NatDigits(v);
      assert s[0] != '-' && s[0] != '+';
      assert Unsigned(IntToString(v)) == s;
    }
  }
}
