/**
  The serializer of OkJson: objectToString, objectToPropertiesString and appendBuilderTabs
  (OkJson.java:1011-1221) as functions from an object and the configuration to the text
  appended to the builder and the status left in errorCode.
 */
module Encode {
  import opened Common
  import opened Model

  /** What one run of objectToPropertiesString produces: its status (0 or UNEXPECT), the text it
      appended, and whether it assigned errorCode along the way. */
  datatype Ser = Ser(code: int, text: string, wrote: bool)

  /** Builder text, status and errorCode once the walk s has appended to prefix, errorCode
      having held ec before it. */
  function After(prefix: string, ec: int, s: Ser): (string, int, int)
  {
    (prefix + s.text, s.code, if s.wrote then s.code else ec)
  }

  /** What objectToString produces: the JSON text, or None for Java's null, and errorCode after
      the call. */
  datatype Rendered = Rendered(text: Option<string>, errorCode: int)

  /** appendBuilderTabs: one tab fewer than the depth. */
  function Tabs(depth: int): (t: string)
    decreases depth
    ensures |t| == if depth > 1 then depth - 1 else 0
    ensures forall i :: 0 <= i < |t| ==> t[i] == '\t'
  {
    if depth <= 1 then "" else Tabs(depth - 1) + "\t"
  }

  /** String concatenation with a field value ("" + value). Decimal values print as the text
      they were read from. */
  function Render(v: Value): string
  {
    match v
    case Null => "null"
    case Str(s) => s
    case Int(i) => IntToString(i)
    case Dec(t) => t
    case Bool(b) => if b then "true" else "false"
    case ObjV(_) => ""
    case ListV(_) => ""
  }

  /** A scalar field, value always quoted; the separator is appended when more declared fields
      follow, whatever they emit. */
  function ScalarMember(cfg: Config, name: string, value: string, more: bool, depth: int): string
  {
    if cfg.compact then ("\"" + name + "\":\"" + value + "\"") + (if more then "," else "")
    else Tabs(depth + 1) + ("\"" + name + "\" : \"" + value + "\"") + (if more then " ," else "") + "\n"
  }

  function NestedHeader(cfg: Config, name: string, depth: int): string
  {
    if cfg.compact then "\"" + name + "\":{" else Tabs(depth + 1) + "\"" + name + "\" : {\n"
  }

  function NestedFooter(cfg: Config, depth: int): string
  {
    if cfg.compact then "}" else Tabs(depth + 1) + "}\n"
  }

  /** A field the serializer cannot get past: one with a method get<Name>(T). Java then calls
      it without an argument, which throws; scalar and nested fields end the walk with
      UNEXPECT, list fields are passed over before the call. */
  predicate Traps(f: FieldDesc)
  {
    f.hasGetter && !f.kind.ListKind?
  }

  /** What one declared field contributes: the walk stops there with a status and the text
      written so far, or goes on after the text of the field, noting whether errorCode was
      assigned. */
  datatype Emit = Stop(code: int, text: string) | Go(text: string, wrote: bool)

  /** One pass of the loop of objectToPropertiesString (OkJson.java:1033-1193) for field f of o;
      more tells whether another declared field follows. */
  function Member(cfg: Config, o: Obj, f: FieldDesc, more: bool, depth: int): (r: Emit)
    decreases o, 0
    ensures r.Stop? ==> r.code == Unexpect
  {
    if f.hasGetter then
      if IsScalar(f.kind) then Stop(Unexpect, "")
      else if f.kind.ListKind? then Go("", false)
      else Stop(Unexpect, NestedHeader(cfg, f.name, depth))
    else if !cfg.direct || f.kind.ListKind? then Go("", false)
    else if IsScalar(f.kind) then Go(ScalarMember(cfg, f.name, Render(FieldValue(o, f)), more, depth), false)
    else if f.name in o.fields && o.fields[f.name].ObjV? then
      var child := o.fields[f.name].obj;
      var inner := FieldsFrom(cfg, child, FieldsOf(cfg.table, child.typeName), 0, depth + 1);
      var head := NestedHeader(cfg, f.name, depth) + inner.text;
      if inner.code != 0 then Stop(inner.code, head)
      else Go(head + NestedFooter(cfg, depth), true)
    else Go("", false)
  }

  /** objectToPropertiesString (OkJson.java:1020-1196) from field i on. */
  function FieldsFrom(cfg: Config, o: Obj, fields: seq<FieldDesc>, i: nat, depth: int): (r: Ser)
    decreases o, 1, |fields| - i
    ensures r.code == 0 || r.code == Unexpect
    ensures r.code == Unexpect ==> r.wrote
  {
    if i >= |fields| then Ser(0, "", false)
    else
      match Member(cfg, o, fields[i], i + 1 < |fields|, depth)
      case Stop(code, text) => Ser(code, text, true)
      case Go(text, wrote) =>
        var rest := FieldsFrom(cfg, o, fields, i + 1, depth);
        Ser(rest.code, text + rest.text, wrote || rest.wrote)
  }

  /** Whether the walk stops, the status, the builder text and errorCode once member m has been
      appended to prefix, errorCode having held ec before it. */
  function Applied(prefix: string, ec: int, m: Emit): (bool, int, string, int)
  {
    match m
    case Stop(code, text) => (true, code, prefix + text, code)
    case Go(text, wrote) => (false, 0, prefix + text, if wrote then 0 else ec)
  }

  /** Running the walk from field i is running field i's member, then the walk from field i + 1
      on the builder and errorCode the member leaves behind. */
  lemma AfterMember(cfg: Config, o: Obj, fields: seq<FieldDesc>, i: nat, depth: int, prefix: string, ec: int)
    requires i < |fields|
    ensures var (stop, code, text, e) := Applied(prefix, ec, Member(cfg, o, fields[i], i + 1 < |fields|, depth));
            After(prefix, ec, FieldsFrom(cfg, o, fields, i, depth))
              == if stop then (text, code, e) else After(text, e, FieldsFrom(cfg, o, fields, i + 1, depth))
  {
    var m := Member(cfg, o, fields[i], i + 1 < |fields|, depth);
    if m.Go? {
      var rest := FieldsFrom(cfg, o, fields, i + 1, depth);
      assert prefix + (m.text + rest.text) == prefix + m.text + rest.text;
    }
  }

  function Open(cfg: Config): string { if cfg.compact then "{" else "{\n" }

  function Close(cfg: Config): string { if cfg.compact then "}" else "}\n" }

  /** objectToString (OkJson.java:1198-1221), given errorCode before the call. */
  function Serialize(cfg: Config, o: Obj, errorCode: int): (r: Rendered)
    ensures r.text.Some? ==> |r.text.value| >= |Open(cfg)| + |Close(cfg)|
    ensures r.text.Some? ==> r.text.value[..|Open(cfg)|] == Open(cfg)
    ensures r.text.Some? ==> r.text.value[|r.text.value| - |Close(cfg)|..] == Close(cfg)
    ensures r.text.None? ==> r.errorCode == Unexpect
    ensures r.errorCode == errorCode || r.errorCode == 0 || r.errorCode == Unexpect
  {
    var s := FieldsFrom(cfg, o, FieldsOf(cfg.table, o.typeName), 0, 1);
    var code := if s.wrote then s.code else errorCode;
    if s.code != 0 then Rendered(None, code)
    else
      var t := Open(cfg) + s.text + Close(cfg);
      assert t[..|Open(cfg)|] == Open(cfg);
      assert t[|t| - |Close(cfg)|..] == Close(cfg);
      Rendered(Some(t), code)
  }

  // ---------------------------------------------------------------------------------------
  // Properties of the serializer

  /** No declared field anywhere in the table has a getter the serializer would call. */
  ghost predicate NoTraps(table: Table)
  {
    forall t, f :: t in table && f in table[t] ==> !Traps(f)
  }

  lemma {:induction false} NoTrapsNoFailure(cfg: Config, o: Obj, fields: seq<FieldDesc>, i: nat, depth: int)
    requires NoTraps(cfg.table)
    requires forall f :: f in fields ==> !Traps(f)
    ensures FieldsFrom(cfg, o, fields, i, depth).code == 0
    decreases o, |fields| - i
  {
    if i < |fields| {
      var f := fields[i];
      assert f in fields;
      if !f.hasGetter && cfg.direct && f.kind.Nested? && f.name in o.fields && o.fields[f.name].ObjV? {
        var child := o.fields[f.name].obj;
        NoTrapsNoFailure(cfg, child, FieldsOf(cfg.table, child.typeName), 0, depth + 1);
      }
      NoTrapsNoFailure(cfg, o, fields, i + 1, depth);
    }
  }

  /** Serialization always succeeds when no declared field has a getter that the serializer
      would invoke. */
  lemma SucceedsWithoutGetters(cfg: Config, o: Obj, errorCode: int)
    requires NoTraps(cfg.table)
    ensures Serialize(cfg, o, errorCode).text.Some?
  {
    var fields := FieldsOf(cfg.table, o.typeName);
    NoTrapsNoFailure(cfg, o, fields, 0, 1);
  }

  lemma {:induction false} TrapAheadFails(cfg: Config, o: Obj, fields: seq<FieldDesc>, i: nat, j: nat, depth: int)
    requires i <= j < |fields| && Traps(fields[j])
    ensures FieldsFrom(cfg, o, fields, i, depth).code == Unexpect
    decreases j - i
  {
    if i < j {
      TrapAheadFails(cfg, o, fields, i + 1, j, depth);
    }
  }

  /** Conversely, a declared field of the object's own class with such a getter makes
      objectToString return null and leave UNEXPECT in errorCode, whatever the other fields. */
  lemma GetterFieldFails(cfg: Config, o: Obj, errorCode: int, j: nat)
    requires j < |FieldsOf(cfg.table, o.typeName)| && Traps(FieldsOf(cfg.table, o.typeName)[j])
    ensures Serialize(cfg, o, errorCode) == Rendered(None, Unexpect)
  {
    TrapAheadFails(cfg, o, FieldsOf(cfg.table, o.typeName), 0, j, 1);
  }

  lemma {:induction false} DirectOffSilent(cfg: Config, o: Obj, fields: seq<FieldDesc>, i: nat, depth: int)
    requires !cfg.direct
    requires forall f :: f in fields ==> !Traps(f)
    ensures FieldsFrom(cfg, o, fields, i, depth) == Ser(0, "", false)
    decreases |fields| - i
  {
    if i < |fields| {
      assert fields[i] in fields;
      DirectOffSilent(cfg, o, fields, i + 1, depth);
    }
  }

  /** Without direct access no field is read (there is no usable getter), so the output is an
      empty pair of braces and errorCode keeps its value. */
  lemma DirectAccessOffEmitsBraces(cfg: Config, o: Obj, errorCode: int)
    requires !cfg.direct
    requires forall f :: f in FieldsOf(cfg.table, o.typeName) ==> !Traps(f)
    ensures Serialize(cfg, o, errorCode) == Rendered(Some(Open(cfg) + Close(cfg)), errorCode)
  {
    DirectOffSilent(cfg, o, FieldsOf(cfg.table, o.typeName), 0, 1);
  }

  /** Compact layout of two scalar fields: each is "name":"value" with the value quoted
      whatever its kind, and one ',' separates them. */
  lemma CompactTwoScalars(cfg: Config, o: Obj, a: FieldDesc, b: FieldDesc, errorCode: int)
    requires cfg.compact && cfg.direct
    requires FieldsOf(cfg.table, o.typeName) == [a, b]
    requires IsScalar(a.kind) && IsScalar(b.kind) && !a.hasGetter && !b.hasGetter
    ensures Serialize(cfg, o, errorCode).text
         == Some("{" + ("\"" + a.name + "\":\"" + Render(FieldValue(o, a)) + "\"" + ","
                        + ("\"" + b.name + "\":\"" + Render(FieldValue(o, b)) + "\"")) + "}")
  {
    var fs := [a, b];
    assert FieldsFrom(cfg, o, fs, 2, 1) == Ser(0, "", false);
    var mb := ScalarMember(cfg, b.name, Render(FieldValue(o, b)), false, 1);
    assert FieldsFrom(cfg, o, fs, 1, 1) == Ser(0, mb, false);
    var ma := ScalarMember(cfg, a.name, Render(FieldValue(o, a)), true, 1);
    assert FieldsFrom(cfg, o, fs, 0, 1) == Ser(0, ma + mb, false);
    assert Serialize(cfg, o, errorCode).text == Some("{" + (ma + mb) + "}");
    var qb := "\"" + b.name + "\":\"" + Render(FieldValue(o, b)) + "\"";
    assert mb == qb + "" == qb;
  }

  /** Pretty layout of two scalar fields at depth 1: each on its own line behind one tab,
      " : " between name and value, and " ," ending the first. */
  lemma PrettyTwoScalars(cfg: Config, o: Obj, a: FieldDesc, b: FieldDesc, errorCode: int)
    requires !cfg.compact && cfg.direct
    requires FieldsOf(cfg.table, o.typeName) == [a, b]
    requires IsScalar(a.kind) && IsScalar(b.kind) && !a.hasGetter && !b.hasGetter
    ensures Serialize(cfg, o, errorCode).text
         == Some("{\n"
                 + ("\t" + ("\"" + a.name + "\" : \"" + Render(FieldValue(o, a)) + "\"") + " ,\n"
                    + ("\t" + ("\"" + b.name + "\" : \"" + Render(FieldValue(o, b)) + "\"") + "\n"))
                 + "}\n")
  {
    var fs := [a, b];
    assert Tabs(2) == "\t";
    assert FieldsFrom(cfg, o, fs, 2, 1) == Ser(0, "", false);
    var mb := ScalarMember(cfg, b.name, Render(FieldValue(o, b)), false, 1);
    assert FieldsFrom(cfg, o, fs, 1, 1) == Ser(0, mb, false);
    var ma := ScalarMember(cfg, a.name, Render(FieldValue(o, a)), true, 1);
    assert FieldsFrom(cfg, o, fs, 0, 1) == Ser(0, ma + mb, false);
    assert Serialize(cfg, o, errorCode).text == Some("{\n" + (ma + mb) + "}\n");
    var qa := "\"" + a.name + "\" : \"" + Render(FieldValue(o, a)) + "\"";
    var qb := "\"" + b.name + "\" : \"" + Render(FieldValue(o, b)) + "\"";
    assert ma == "\t" + qa + " ,\n";
    assert mb == "\t" + qb + "\n";
  }

  /** A list field prints nothing, yet it still counts as a following field for the separator
      of the scalar before it: the output ends in ",}". */
  lemma TrailingListLeavesComma(cfg: Config, o: Obj, s: FieldDesc, l: FieldDesc, errorCode: int)
    requires cfg.compact && cfg.direct
    requires FieldsOf(cfg.table, o.typeName) == [s, l]
    requires IsScalar(s.kind) && !s.hasGetter && l.kind.ListKind?
    ensures Serialize(cfg, o, errorCode).text
         == Some("{" + ("\"" + s.name + "\":\"" + Render(FieldValue(o, s)) + "\"" + ",") + "}")
  {
    var fs := [s, l];
    assert FieldsFrom(cfg, o, fs, 2, 1) == Ser(0, "", false);
    assert FieldsFrom(cfg, o, fs, 1, 1) == Ser(0, "", false);
    var ms := ScalarMember(cfg, s.name, Render(FieldValue(o, s)), true, 1);
    assert FieldsFrom(cfg, o, fs, 0, 1) == Ser(0, ms + "", false);
    assert ms + "" == ms;
    assert Serialize(cfg, o, errorCode).text == Some("{" + ms + "}");
  }

  /** No separator follows a nested object: its closing brace is followed directly by the next
      member. The nested walk also leaves 0 in errorCode. */
  lemma NoCommaAfterNested(cfg: Config, o: Obj, c: FieldDesc, s: FieldDesc, child: Obj, errorCode: int)
    requires cfg.compact && cfg.direct
    requires FieldsOf(cfg.table, o.typeName) == [c, s]
    requires c.kind.Nested? && !c.hasGetter && c.name in o.fields && o.fields[c.name] == ObjV(child)
    requires IsScalar(s.kind) && !s.hasGetter
    requires FieldsFrom(cfg, child, FieldsOf(cfg.table, child.typeName), 0, 2).code == 0
    ensures var inner := FieldsFrom(cfg, child, FieldsOf(cfg.table, child.typeName), 0, 2).text;
            Serialize(cfg, o, errorCode)
              == Rendered(Some("{" + ("\"" + c.name + "\":{" + inner + "}"
                                      + ("\"" + s.name + "\":\"" + Render(FieldValue(o, s)) + "\"")) + "}"), 0)
  {
    var fs := [c, s];
    var inner := FieldsFrom(cfg, child, FieldsOf(cfg.table, child.typeName), 0, 2);
    assert FieldsFrom(cfg, o, fs, 2, 1) == Ser(0, "", false);
    var ms := ScalarMember(cfg, s.name, Render(FieldValue(o, s)), false, 1);
    assert FieldsFrom(cfg, o, fs, 1, 1) == Ser(0, ms, false);
    var head := NestedHeader(cfg, c.name, 1) + inner.text;
    assert FieldsFrom(cfg, o, fs, 0, 1) == Ser(0, head + "}" + ms, true);
    assert Serialize(cfg, o, errorCode) == Rendered(Some("{" + (head + "}" + ms) + "}"), 0);
    var qs := "\"" + s.name + "\":\"" + Render(FieldValue(o, s)) + "\"";
    assert ms == qs + "" == qs;
  }

  // ---------------------------------------------------------------------------------------
  // The layout of a flat object, field by field

  /** A flat field list: every field is a scalar or a list, and none has a getter. */
  predicate Flat(fields: seq<FieldDesc>)
  {
    forall j :: 0 <= j < |fields| ==> !fields[j].hasGetter && (IsScalar(fields[j].kind) || fields[j].kind.ListKind?)
  }

  /** The compact text of the fields from i on: each scalar as "name":"value", followed by ','
      exactly when another declared field follows it; a list field contributes nothing. */
  function CompactText(o: Obj, fields: seq<FieldDesc>, i: nat): string
    decreases |fields| - i
  {
    if i >= |fields| then ""
    else
      var f := fields[i];
      var piece := if f.kind.ListKind? then ""
                   else "\"" + f.name + "\":\"" + Render(FieldValue(o, f)) + "\"" + (if i + 1 < |fields| then "," else "");
      piece + CompactText(o, fields, i + 1)
  }

  /** The pretty text of the fields from i on at the given depth: each scalar on a line of its
      own behind depth tabs, as "name" : "value", with " ," before the line end exactly when
      another declared field follows it; a list field contributes nothing. */
  function PrettyText(o: Obj, fields: seq<FieldDesc>, i: nat, depth: int): string
    decreases |fields| - i
  {
    if i >= |fields| then ""
    else
      var f := fields[i];
      var piece := if f.kind.ListKind? then ""
                   else Tabs(depth + 1) + "\"" + f.name + "\" : \"" + Render(FieldValue(o, f)) + "\""
                        + (if i + 1 < |fields| then " ," else "") + "\n";
      piece + PrettyText(o, fields, i + 1, depth)
  }

  /** With direct access, the compact walk over a flat field list writes CompactText and
      succeeds without touching errorCode. */
  lemma {:induction false} CompactLayout(cfg: Config, o: Obj, fields: seq<FieldDesc>, i: nat, depth: int)
    requires cfg.compact && cfg.direct && Flat(fields)
    ensures FieldsFrom(cfg, o, fields, i, depth) == Ser(0, CompactText(o, fields, i), false)
    decreases |fields| - i
  {
    if i < |fields| {
      CompactLayout(cfg, o, fields, i + 1, depth);
    }
  }

  /** With direct access, the pretty walk over a flat field list writes PrettyText and succeeds
      without touching errorCode. */
  lemma {:induction false} PrettyLayout(cfg: Config, o: Obj, fields: seq<FieldDesc>, i: nat, depth: int)
    requires !cfg.compact && cfg.direct && Flat(fields)
    ensures FieldsFrom(cfg, o, fields, i, depth) == Ser(0, PrettyText(o, fields, i, depth), false)
    decreases |fields| - i
  {
    if i < |fields| {
      PrettyLayout(cfg, o, fields, i + 1, depth);
      var f := fields[i];
      if !f.kind.ListKind? {
        // ScalarMember groups the quoted pair; PrettyText writes it piece by piece
        var pair := "\"" + f.name + "\" : \"" + Render(FieldValue(o, f)) + "\"";
        var sep := if i + 1 < |fields| then " ," else "";
        assert Tabs(depth + 1) + pair + sep + "\n"
            == Tabs(depth + 1) + "\"" + f.name + "\" : \"" + Render(FieldValue(o, f)) + "\"" + sep + "\n";
      }
    }
  }

  /** objectToString of an object whose class has a flat field list, with direct access: the
      braces of the layout around the text of its fields, errorCode unchanged. */
  lemma FlatSerialize(cfg: Config, o: Obj, errorCode: int)
    requires cfg.direct && Flat(FieldsOf(cfg.table, o.typeName))
    ensures var fields := FieldsOf(cfg.table, o.typeName);
            Serialize(cfg, o, errorCode)
              == Rendered(Some(if cfg.compact then "{" + CompactText(o, fields, 0) + "}"
                               else "{\n" + PrettyText(o, fields, 0, 1) + "}\n"), errorCode)
  {
    if cfg.compact {
      CompactLayout(cfg, o, FieldsOf(cfg.table, o.typeName), 0, 1);
    } else {
      PrettyLayout(cfg, o, FieldsOf(cfg.table, o.typeName), 0, 1);
    }
  }
}
