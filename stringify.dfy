/** The older four-style renderer (`Stringify`): every value renders into a
    `String` buffer given four styles, `parentInit` for its first indentation,
    `parentRest` for the rest of its own layout, and `childInit`/`childRest`,
    whose meaning each impl chooses. Nothing is looked up, so nothing fails. */
module Stringify {
  import opened Styling

  /** The values this renderer handles. `Str` is both `String` and `&str`;
      `Int` stands for every integer width. A `Vec` holds its items in order
      and a `HashMap` its entries in iteration order. */
  datatype Datum =
    | Bool(b: bool)
    | Str(s: string)
    | Int(i: int)
    | NewlineVal(newline: Newline)
    | StyleVal(style: Style)
    | Vec(items: seq<Datum>)
    | HashMap(entries: seq<Pair>)
    | ResultOk(ok: Datum)
    | ResultErr(err: Datum)

  datatype Pair = Pair(key: Datum, value: Datum)

  // The fixed tokens of the output.
  const VEC_EMPTY: string := "Vec []"
  const HASH_EMPTY: string := "HashMap {}"
  const VEC_OPEN: string := "Vec ["
  const VEC_CLOSE: string := "]"
  const HASH_OPEN: string := "HashMap {"
  const MAP_CLOSE: string := "}"
  const SEPARATOR: string := " : "
  const COMMA: string := ","
  const EQUALS: string := "="
  const OK_OPEN: string := "Ok("
  const ERR_OPEN: string := "Err("
  const RESULT_CLOSE: string := ")"
  const STYLE_OPEN: string := "Style {"
  const NEWLINE_PREFIX: string := "Newline::"

  /** The two styles a `Style` renders its fields with: each field name on a
      new line at level zero, each value with no indentation at all. */
  const FIELD_NAME_STYLE: Style := Style(Add, 0, INDENT)
  const FIELD_VALUE_STYLE: Style := Style(Omit, 0, INDENT)

  /** The values whose impl writes one fixed text and ignores every style. */
  predicate IsLeaf(d: Datum)
  {
    d.Bool? || d.Str? || d.Int? || d.NewlineVal?
  }

  /** A `Style` renders its fields through `stringify_field`, so its
      rendering calls the renderer on values that are not part of it; those
      values are leaves, and this rank puts them below every other value. */
  function Rank(d: Datum): nat
  {
    if IsLeaf(d) then 0 else 1
  }

  // ---------------------------------------------------------------------
  // Display texts of the leaves

  /** The character of one decimal digit. */
  function DigitChar(n: nat): char
    requires n < 10
  {
    ('0' as int + n) as char
  }

  /** The decimal digits of `n`, most significant first, with no leading
      zero. */
  function NatToString(n: nat): string
  {
    if n < 10 then [DigitChar(n)] else NatToString(n / 10) + [DigitChar(n % 10)]
  }

  /** `format!("{}", i)` for an integer: a minus sign for a negative value,
      then the decimal digits of its magnitude. */
  function IntToString(i: int): string
  {
    if i < 0 then "-" + NatToString(-i) else NatToString(i)
  }

  /** `format!("{}", b)` for a `bool`. */
  function BoolToString(b: bool): string
  {
    if b then "true" else "false"
  }

  /** The derived `Debug` text of a `Newline`: the variant's name. */
  function NewlineDebug(n: Newline): string
  {
    match n
    case Add => "Add"
    case Omit => "Omit"
  }

  // ---------------------------------------------------------------------
  // What each impl appends to the buffer

  /** `stringify(parentInit, parentRest, childInit, childRest)`. */
  function Text(d: Datum, pi: Style, pr: Style, ci: Style, cr: Style): string
    decreases Rank(d), d, 2
  {
    match d
    case Bool(b) => BoolToString(b)
    case Str(s) => s
    case Int(i) => IntToString(i)
    case NewlineVal(n) => IndentText(pi) + NEWLINE_PREFIX + NewlineDebug(n)
    case StyleVal(_) => StyleText(d, pi, pr)
    case Vec(items) =>
      if |items| == 0 then IndentText(pi) + VEC_EMPTY
      else IndentText(pi) + VEC_OPEN + ItemsText(d, pr, ci, cr, |items|) + IndentText(pr) + VEC_CLOSE
    case HashMap(entries) =>
      if |entries| == 0 then HASH_EMPTY
      else IndentText(pi) + HASH_OPEN + EntriesText(d, ci, cr, |entries|)
           + IndentText(Standard(Add, pr.indentLevel + 1)) + MAP_CLOSE
    case ResultOk(x) => IndentText(pi) + OK_OPEN + Text(x, pi, pr, ci, cr) + RESULT_CLOSE
    case ResultErr(x) => IndentText(pi) + ERR_OPEN + Text(x, pi, pr, ci, cr) + RESULT_CLOSE
  }

  /** The first `n` turns of the item loop of a `Vec`. */
  function ItemsText(d: Datum, pr: Style, ei: Style, er: Style, n: nat): string
    requires d.Vec? && n <= |d.items|
    decreases Rank(d), d, 0, n
  {
    if n == 0 then "" else ItemsText(d, pr, ei, er, n - 1) + ItemText(d.items[n - 1], pr, ei, er)
  }

  /** One turn: `indent(parentRest + 1)`, the item with `(eltInit, eltRest,
      default, default)`, `","`. */
  function ItemText(item: Datum, pr: Style, ei: Style, er: Style): string
    decreases Rank(item), item, 3
  {
    IndentText(pr.Plus(1)) + Text(item, ei, er, Default(), Default()) + COMMA
  }

  /** The first `n` turns of the entry loop of a `HashMap`. */
  function EntriesText(d: Datum, ks: Style, vs: Style, n: nat): string
    requires d.HashMap? && n <= |d.entries|
    decreases Rank(d), d, 0, n
  {
    if n == 0 then "" else EntriesText(d, ks, vs, n - 1) + EntryText(d.entries[n - 1], ks, vs)
  }

  /** One turn: the key with `keyStyle` in all four positions, `" : "`, the
      value with `valueStyle` in all four positions, `","`. */
  function EntryText(e: Pair, ks: Style, vs: Style): string
    decreases 1, e, 3
  {
    Text(e.key, ks, ks, ks, ks) + SEPARATOR + Text(e.value, vs, vs, vs, vs) + COMMA
  }

  /** A `Style`: `indent(parentInit)`, `"Style {"`, its `newline` and
      `indent_level` fields, `indent(parentRest)`, `"}"`. Its indentation
      unit is not written. */
  function StyleText(d: Datum, pi: Style, pr: Style): string
    requires d.StyleVal?
    decreases Rank(d), d, 1
  {
    IndentText(pi) + STYLE_OPEN
    + FieldText("newline", NewlineVal(d.style.newline), FIELD_NAME_STYLE, FIELD_VALUE_STYLE)
    + FieldText("indent_level", Int(d.style.indentLevel), FIELD_NAME_STYLE, FIELD_VALUE_STYLE)
    + IndentText(pr) + MAP_CLOSE
  }

  /** `stringify_field`: `indent(nameStyle)`, the name, `"="`, then the
      value with `valueStyle` in all four positions. */
  function FieldText(name: string, value: Datum, ns: Style, vs: Style): string
    decreases Rank(value), value, 3
  {
    IndentText(ns) + name + EQUALS + Text(value, vs, vs, vs, vs)
  }

  // ---------------------------------------------------------------------
  // The buffer and the renderers that append to it

  /** The `&mut String` every renderer appends to. */
  class StringBuffer {
    var buffer: string

    constructor ()
      ensures buffer == ""
    {
      buffer := "";
    }

    /** `indent`: a line break when the policy is `Add`, then the unit
        `indentLevel` times. */
    method Indent(style: Style)
      modifies this
      ensures buffer == old(buffer) + IndentText(style)
    {
      if style.newline == Add {
        buffer := buffer + "\n";
      }
      ghost var head := buffer;
      for i := 0 to style.indentLevel
        invariant buffer == head + Repeat(style.indent, i)
      {
        buffer := buffer + style.indent;
      }
    }

    /** `stringify`. */
    method Stringify(d: Datum, pi: Style, pr: Style, ci: Style, cr: Style)
      modifies this
      ensures buffer == old(buffer) + Text(d, pi, pr, ci, cr)
      decreases Rank(d), d, 2
    {
      match d
      case Bool(b) =>
        buffer := buffer + BoolToString(b);
      case Str(s) =>
        buffer := buffer + s;
      case Int(i) =>
        buffer := buffer + IntToString(i);
      case NewlineVal(n) =>
        ghost var head := buffer;
        Indent(pi);
        buffer := buffer + NEWLINE_PREFIX + NewlineDebug(n);
        AppendAssoc3(head, IndentText(pi), NEWLINE_PREFIX, NewlineDebug(n));
      case StyleVal(_) =>
        StringifyStyle(d, pi, pr);
      case Vec(_) =>
        StringifyVec(d, pi, pr, ci, cr);
      case HashMap(entries) =>
        if |entries| == 0 {
          buffer := buffer + HASH_EMPTY;
        } else {
          StringifyHashMap(d, pi, pr, ci, cr);
        }
      case ResultOk(x) =>
        StringifyResult(d, x, OK_OPEN, pi, pr, ci, cr);
      case ResultErr(x) =>
        StringifyResult(d, x, ERR_OPEN, pi, pr, ci, cr);
    }

    /** A `Vec`: the indentation comes before the emptiness check. */
    method StringifyVec(d: Datum, pi: Style, pr: Style, ei: Style, er: Style)
      requires d.Vec?
      modifies this
      ensures buffer == old(buffer) + Text(d, pi, pr, ei, er)
      decreases Rank(d), d, 1
    {
      ghost var head := buffer;
      Indent(pi);
      if |d.items| == 0 {
        buffer := buffer + VEC_EMPTY;
        AppendAssoc(head, IndentText(pi), VEC_EMPTY);
        return;
      }
      buffer := buffer + VEC_OPEN;
      AppendAssoc(head, IndentText(pi), VEC_OPEN);
      ghost var open := IndentText(pi) + VEC_OPEN;
      ghost var body := ItemsText(d, pr, ei, er, |d.items|);
      StringifyItems(d, pr, ei, er);
      AppendAssoc(head, open, body);
      Indent(pr);
      buffer := buffer + VEC_CLOSE;
      AppendAssoc3(head, open + body, IndentText(pr), VEC_CLOSE);
    }

    /** The `for item in self.iter()` loop of a `Vec`. */
    method StringifyItems(d: Datum, pr: Style, ei: Style, er: Style)
      requires d.Vec?
      modifies this
      ensures buffer == old(buffer) + ItemsText(d, pr, ei, er, |d.items|)
      decreases Rank(d), d, 0, |d.items|
    {
      var i := 0;
      while i < |d.items|
        invariant 0 <= i <= |d.items|
        invariant buffer == old(buffer) + ItemsText(d, pr, ei, er, i)
      {
        ghost var prev := ItemsText(d, pr, ei, er, i);
        StringifyItem(d.items[i], pr, ei, er);
        AppendAssoc(old(buffer), prev, ItemText(d.items[i], pr, ei, er));
        i := i + 1;
      }
    }

    /** The body of the item loop. */
    method StringifyItem(item: Datum, pr: Style, ei: Style, er: Style)
      modifies this
      ensures buffer == old(buffer) + ItemText(item, pr, ei, er)
      decreases Rank(item), item, 3
    {
      ghost var head := buffer;
      Indent(pr.Plus(1));
      Stringify(item, ei, er, Default(), Default());
      buffer := buffer + COMMA;
      AppendAssoc3(head, IndentText(pr.Plus(1)), Text(item, ei, er, Default(), Default()), COMMA);
    }

    /** A non-empty `HashMap`: the opening, the entries and the closing. */
    method StringifyHashMap(d: Datum, pi: Style, pr: Style, ks: Style, vs: Style)
      requires d.HashMap? && |d.entries| > 0
      modifies this
      ensures buffer == old(buffer) + Text(d, pi, pr, ks, vs)
      decreases Rank(d), d, 1
    {
      ghost var head := buffer;
      Indent(pi);
      buffer := buffer + HASH_OPEN;
      AppendAssoc(head, IndentText(pi), HASH_OPEN);
      ghost var open := IndentText(pi) + HASH_OPEN;
      ghost var body := EntriesText(d, ks, vs, |d.entries|);
      StringifyEntries(d, ks, vs);
      AppendAssoc(head, open, body);
      ghost var close := IndentText(Standard(Add, pr.indentLevel + 1));
      Indent(Standard(Add, pr.indentLevel + 1));
      buffer := buffer + MAP_CLOSE;
      AppendAssoc3(head, open + body, close, MAP_CLOSE);
    }

    /** The `for (key, value) in self.iter()` loop of a `HashMap`. */
    method StringifyEntries(d: Datum, ks: Style, vs: Style)
      requires d.HashMap?
      modifies this
      ensures buffer == old(buffer) + EntriesText(d, ks, vs, |d.entries|)
      decreases Rank(d), d, 0, |d.entries|
    {
      var i := 0;
      while i < |d.entries|
        invariant 0 <= i <= |d.entries|
        invariant buffer == old(buffer) + EntriesText(d, ks, vs, i)
      {
        ghost var prev := EntriesText(d, ks, vs, i);
        StringifyEntry(d.entries[i], ks, vs);
        AppendAssoc(old(buffer), prev, EntryText(d.entries[i], ks, vs));
        i := i + 1;
      }
    }

    /** The body of the entry loop. */
    method StringifyEntry(e: Pair, ks: Style, vs: Style)
      modifies this
      ensures buffer == old(buffer) + EntryText(e, ks, vs)
      decreases 1, e, 3
    {
      ghost var head := buffer;
      ghost var key := Text(e.key, ks, ks, ks, ks);
      ghost var value := Text(e.value, vs, vs, vs, vs);
      Stringify(e.key, ks, ks, ks, ks);
      buffer := buffer + SEPARATOR;
      Stringify(e.value, vs, vs, vs, vs);
      AppendAssoc3(head, key, SEPARATOR, value);
      buffer := buffer + COMMA;
      AppendAssoc(head, key + SEPARATOR + value, COMMA);
    }

    /** `Ok(x)` or `Err(x)`: the indentation, the opening, then `x` with the
        same four styles, then `")"`. */
    method StringifyResult(d: Datum, x: Datum, opening: string, pi: Style, pr: Style, ci: Style, cr: Style)
      requires (d == ResultOk(x) && opening == OK_OPEN) || (d == ResultErr(x) && opening == ERR_OPEN)
      modifies this
      ensures buffer == old(buffer) + Text(d, pi, pr, ci, cr)
      decreases Rank(d), d, 1
    {
      ghost var head := buffer;
      Indent(pi);
      buffer := buffer + opening;
      AppendAssoc(head, IndentText(pi), opening);
      ghost var open := IndentText(pi) + opening;
      Stringify(x, pi, pr, ci, cr);
      AppendAssoc(head, open, Text(x, pi, pr, ci, cr));
      buffer := buffer + RESULT_CLOSE;
      AppendAssoc(head, open + Text(x, pi, pr, ci, cr), RESULT_CLOSE);
    }

    /** A `Style`: its two fields go through `stringify_field`. */
    method StringifyStyle(d: Datum, pi: Style, pr: Style)
      requires d.StyleVal?
      modifies this
      ensures buffer == old(buffer) + StyleText(d, pi, pr)
      decreases Rank(d), d, 1
    {
      ghost var head := buffer;
      Indent(pi);
      buffer := buffer + STYLE_OPEN;
      AppendAssoc(head, IndentText(pi), STYLE_OPEN);
      ghost var open := IndentText(pi) + STYLE_OPEN;
      ghost var first := FieldText("newline", NewlineVal(d.style.newline), FIELD_NAME_STYLE, FIELD_VALUE_STYLE);
      ghost var second := FieldText("indent_level", Int(d.style.indentLevel), FIELD_NAME_STYLE, FIELD_VALUE_STYLE);
      StringifyField("newline", NewlineVal(d.style.newline), FIELD_NAME_STYLE, FIELD_VALUE_STYLE);
      StringifyField("indent_level", Int(d.style.indentLevel), FIELD_NAME_STYLE, FIELD_VALUE_STYLE);
      AppendAssoc3(head, open, first, second);
      ghost var fields := open + first + second;
      Indent(pr);
      buffer := buffer + MAP_CLOSE;
      AppendAssoc3(head, fields, IndentText(pr), MAP_CLOSE);
    }

    /** `stringify_field`. */
    method StringifyField(name: string, value: Datum, ns: Style, vs: Style)
      modifies this
      ensures buffer == old(buffer) + FieldText(name, value, ns, vs)
      decreases Rank(value), value, 3
    {
      ghost var head := buffer;
      Indent(ns);
      buffer := buffer + name;
      buffer := buffer + EQUALS;
      AppendAssoc3(head, IndentText(ns), name, EQUALS);
      ghost var prefix := IndentText(ns) + name + EQUALS;
      Stringify(value, vs, vs, vs, vs);
      AppendAssoc(head, prefix, Text(value, vs, vs, vs, vs));
    }

    /** `stringify_primitive`: four default styles. */
    method StringifyPrimitive(d: Datum)
      modifies this
      ensures buffer == old(buffer) + Text(d, Default(), Default(), Default(), Default())
    {
      Stringify(d, Default(), Default(), Default(), Default());
    }
  }

  /** `stringify_new`: render into a fresh buffer and return it. */
  method StringifyNew(d: Datum, pi: Style, pr: Style, ci: Style, cr: Style) returns (s: string)
    ensures s == Text(d, pi, pr, ci, cr)
  {
    var b := new StringBuffer();
    b.Stringify(d, pi, pr, ci, cr);
    s := b.buffer;
  }

  /** `stringify_primitive_new`: `stringify_primitive` into a fresh buffer. */
  method StringifyPrimitiveNew(d: Datum) returns (s: string)
    ensures s == Text(d, Default(), Default(), Default(), Default())
  {
    var b := new StringBuffer();
    b.StringifyPrimitive(d);
    s := b.buffer;
  }
}
