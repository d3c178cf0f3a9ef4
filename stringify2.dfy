/** The role-table renderer (`Stringify2`): every value renders into a writer
    given one `Styles` table, looks up the roles it needs there, and builds
    fresh one-role tables for the keys and values of maps. */
module Stringify2 {
  import opened Styling

  /** The values this renderer handles. A leaf is any renderer that looks up
      no role and writes a fixed text. The entries of a map are given in its
      iteration order: arbitrary for a `HashMap`, ascending by key for a
      `BTreeMap`. */
  datatype Value =
    | Leaf(text: string)
    | Vec(items: seq<Value>)
    | HashMap(entries: seq<Entry>)
    | BTreeMap(entries: seq<Entry>)

  datatype Entry = Entry(key: Value, value: Value)

  /** How a render call ends: `Ok(())` or the error it propagated. */
  datatype Outcome = Pass | Fail(error: Error)

  /** What a render call appends to the writer, and how it ends. On `Fail`
      the text is the partial output the call left behind. */
  datatype Written = Written(text: string, outcome: Outcome)

  // The fixed tokens of the output.
  const VEC_EMPTY: string := "Vec []"
  const HASH_EMPTY: string := "HashMap {}"
  const BTREE_EMPTY: string := "BTreeMap {}"
  const VEC_OPEN: string := "Vec ["
  const VEC_CLOSE: string := "]"
  const HASH_LABEL: string := "HashMap"
  const BTREE_LABEL: string := "BTreeMap"
  const MAP_OPEN: string := " {"
  const MAP_CLOSE: string := "}"
  const SEPARATOR: string := " : "
  const COMMA: string := ","
  const EQUALS: string := "="

  predicate IsMap(v: Value) { v.HashMap? || v.BTreeMap? }

  function MapLabel(v: Value): string
    requires IsMap(v)
  {
    if v.HashMap? then HASH_LABEL else BTREE_LABEL
  }

  /** The table a map key is rendered with: only `"key"`. */
  function KeyStyles(start: Style): Styles
  {
    Styles(map["key" := Standard(Add, start.indentLevel + 1)])
  }

  /** The table a map value is rendered with: only `"value"`. */
  function ValueStyles(start: Style): Styles
  {
    Styles(map["value" := Standard(Add, start.indentLevel + 1)])
  }

  // ---------------------------------------------------------------------
  // Specification of `stringify`

  /** What `v.stringify(buf, styles)` appends to `buf` and returns. */
  function Render(v: Value, styles: Styles): Written
    decreases v, 3
  {
    match v
    case Leaf(t) => Written(t, Pass)
    case Vec(items) =>
      if |items| == 0 then Written(VEC_EMPTY, Pass) else RenderVec(v, styles)
    case HashMap(entries) =>
      if |entries| == 0 then Written(HASH_EMPTY, Pass) else RenderMap(v, styles)
    case BTreeMap(entries) =>
      if |entries| == 0 then Written(BTREE_EMPTY, Pass) else RenderMap(v, styles)
  }

  /** A non-empty `Vec`: `"end"` then `"start"` are looked up before anything
      is written; the items share the caller's table. */
  function RenderVec(v: Value, styles: Styles): Written
    requires v.Vec? && |v.items| > 0
    decreases v, 2
  {
    match styles.Get("end")
    case Err(e) => Written("", Fail(e))
    case Ok(end) =>
      match styles.Get("start")
      case Err(e) => Written("", Fail(e))
      case Ok(start) => RenderVecWith(v, styles, start, end)
  }

  /** A non-empty `Vec` once both roles are resolved. */
  function RenderVecWith(v: Value, styles: Styles, start: Style, end: Style): Written
    requires v.Vec?
    decreases v, 1
  {
    var open := IndentText(start) + VEC_OPEN;
    var body := RenderItems(v, styles, end, |v.items|);
    if body.outcome.Fail? then Written(open + body.text, body.outcome)
    else Written(open + body.text + IndentText(end) + VEC_CLOSE, Pass)
  }

  /** The loop over the first `n` items of a `Vec`, stopping at the first
      item that fails. */
  function RenderItems(v: Value, styles: Styles, end: Style, n: nat): Written
    requires v.Vec? && n <= |v.items|
    decreases v, 0, n
  {
    if n == 0 then Written("", Pass)
    else
      var prev := RenderItems(v, styles, end, n - 1);
      if prev.outcome.Fail? then prev
      else
        var item := RenderItem(v.items[n - 1], styles, end);
        Written(prev.text + item.text, item.outcome)
  }

  /** One step of that loop: `indent(end + 1)`, the item, `COMMA`. */
  function RenderItem(item: Value, styles: Styles, end: Style): Written
    decreases item, 4
  {
    var r := Render(item, styles);
    var text := IndentText(end.Plus(1)) + r.text;
    if r.outcome.Fail? then Written(text, r.outcome) else Written(text + COMMA, Pass)
  }

  /** A non-empty map: `"start"` is looked up first, `"end"` only after every
      entry has been written. */
  function RenderMap(v: Value, styles: Styles): Written
    requires IsMap(v) && |v.entries| > 0
    decreases v, 2
  {
    match styles.Get("start")
    case Err(e) => Written("", Fail(e))
    case Ok(start) => RenderMapWith(v, styles, start)
  }

  /** A non-empty map once `"start"` is resolved. */
  function RenderMapWith(v: Value, styles: Styles, start: Style): Written
    requires IsMap(v)
    decreases v, 1
  {
    var open := IndentText(start) + MapLabel(v) + MAP_OPEN;
    var body := RenderEntries(v, start, |v.entries|);
    if body.outcome.Fail? then Written(open + body.text, body.outcome)
    else
      match styles.Get("end")
      case Err(e) => Written(open + body.text, Fail(e))
      case Ok(end) =>
        Written(open + body.text + IndentText(Standard(Add, end.indentLevel + 1)) + MAP_CLOSE, Pass)
  }

  /** The loop over the first `n` entries of a map. */
  function RenderEntries(v: Value, start: Style, n: nat): Written
    requires IsMap(v) && n <= |v.entries|
    decreases v, 0, n
  {
    if n == 0 then Written("", Pass)
    else
      var prev := RenderEntries(v, start, n - 1);
      if prev.outcome.Fail? then prev
      else
        var entry := RenderEntry(v.entries[n - 1], start);
        Written(prev.text + entry.text, entry.outcome)
  }

  /** One step of that loop: the key with its one-role table, `SEPARATOR`, the
      value with its one-role table, `COMMA`. */
  function RenderEntry(e: Entry, start: Style): Written
    decreases e, 4
  {
    var key := Render(e.key, KeyStyles(start));
    if key.outcome.Fail? then key
    else
      var value := Render(e.value, ValueStyles(start));
      var text := key.text + SEPARATOR + value.text;
      if value.outcome.Fail? then Written(text, value.outcome) else Written(text + COMMA, Pass)
  }

  /** What `stringify_field(buf, styles, name, value)` appends and returns. */
  function RenderField(name: string, value: Value, styles: Styles): Written
  {
    match styles.Get("name")
    case Err(e) => Written("", Fail(e))
    case Ok(nameStyle) =>
      var r := Render(value, styles);
      Written(IndentText(nameStyle) + name + EQUALS + r.text, r.outcome)
  }

  // ---------------------------------------------------------------------
  // The writer and the renderers that append to it

  /** The output sink: an append-only character buffer whose writes always
      succeed. */
  class Writer {
    var buf: string

    constructor ()
      ensures buf == ""
    {
      buf := "";
    }

    /** `indent`: a line break when the policy is `Add`, then the unit
        `indentLevel` times. */
    method Indent(style: Style)
      modifies this
      ensures buf == old(buf) + IndentText(style)
    {
      if style.newline == Add {
        buf := buf + "\n";
      }
      ghost var head := buf;
      for i := 0 to style.indentLevel
        invariant buf == head + Repeat(style.indent, i)
      {
        buf := buf + style.indent;
      }
    }

    /** `stringify`. */
    method Stringify(v: Value, styles: Styles) returns (o: Outcome)
      modifies this
      ensures buf == old(buf) + Render(v, styles).text
      ensures o == Render(v, styles).outcome
      decreases v, 3
    {
      match v
      case Leaf(t) =>
        buf := buf + t;
        o := Pass;
      case Vec(items) =>
        if |items| == 0 {
          buf := buf + VEC_EMPTY;
          o := Pass;
        } else {
          o := StringifyVec(v, styles);
        }
      case HashMap(entries) =>
        if |entries| == 0 {
          buf := buf + HASH_EMPTY;
          o := Pass;
        } else {
          o := StringifyMap(v, styles);
        }
      case BTreeMap(entries) =>
        if |entries| == 0 {
          buf := buf + BTREE_EMPTY;
          o := Pass;
        } else {
          o := StringifyMap(v, styles);
        }
    }

    /** A non-empty `Vec`: both lookups before anything is written. */
    method StringifyVec(v: Value, styles: Styles) returns (o: Outcome)
      requires v.Vec? && |v.items| > 0
      modifies this
      ensures buf == old(buf) + RenderVec(v, styles).text
      ensures o == RenderVec(v, styles).outcome
      decreases v, 2
    {
      var end := styles.Get("end");
      if end.Err? {
        return Fail(end.error);
      }
      var start := styles.Get("start");
      if start.Err? {
        return Fail(start.error);
      }
      o := StringifyVecWith(v, styles, start.value, end.value);
    }

    /** The opening, the items and the closing of a non-empty `Vec`. */
    method StringifyVecWith(v: Value, styles: Styles, start: Style, end: Style) returns (o: Outcome)
      requires v.Vec?
      modifies this
      ensures buf == old(buf) + RenderVecWith(v, styles, start, end).text
      ensures o == RenderVecWith(v, styles, start, end).outcome
      decreases v, 1
    {
      ghost var head := buf;
      ghost var open := IndentText(start) + VEC_OPEN;
      Indent(start);
      buf := buf + VEC_OPEN;
      AppendAssoc(head, IndentText(start), VEC_OPEN);
      ghost var body := RenderItems(v, styles, end, |v.items|);
      o := StringifyItems(v, styles, end);
      AppendAssoc(head, open, body.text);
      if o.Fail? {
        return;
      }
      Indent(end);
      buf := buf + VEC_CLOSE;
      AppendAssoc3(head, open + body.text, IndentText(end), VEC_CLOSE);
    }

    /** The `for item in self.iter()` loop of a `Vec`. */
    method StringifyItems(v: Value, styles: Styles, end: Style) returns (o: Outcome)
      requires v.Vec?
      modifies this
      ensures buf == old(buf) + RenderItems(v, styles, end, |v.items|).text
      ensures o == RenderItems(v, styles, end, |v.items|).outcome
      decreases v, 0, |v.items|
    {
      var i := 0;
      while i < |v.items|
        invariant 0 <= i <= |v.items|
        invariant RenderItems(v, styles, end, i).outcome == Pass
        invariant buf == old(buf) + RenderItems(v, styles, end, i).text
      {
        ghost var prev := RenderItems(v, styles, end, i).text;
        var r := StringifyItem(v.items[i], styles, end);
        AppendAssoc(old(buf), prev, RenderItem(v.items[i], styles, end).text);
        if r.Fail? {
          ItemsFailureSticks(v, styles, end, i + 1, |v.items|);
          return r;
        }
        i := i + 1;
      }
      o := Pass;
    }

    /** A non-empty map: `"start"` before anything is written. */
    method StringifyMap(v: Value, styles: Styles) returns (o: Outcome)
      requires IsMap(v) && |v.entries| > 0
      modifies this
      ensures buf == old(buf) + RenderMap(v, styles).text
      ensures o == RenderMap(v, styles).outcome
      decreases v, 2
    {
      var start := styles.Get("start");
      if start.Err? {
        return Fail(start.error);
      }
      o := StringifyMapWith(v, styles, start.value);
    }

    /** The opening and the entries of a non-empty map, then `"end"` and the
        closing. */
    method StringifyMapWith(v: Value, styles: Styles, start: Style) returns (o: Outcome)
      requires IsMap(v)
      modifies this
      ensures buf == old(buf) + RenderMapWith(v, styles, start).text
      ensures o == RenderMapWith(v, styles, start).outcome
      decreases v, 1
    {
      ghost var head := buf;
      ghost var open := IndentText(start) + MapLabel(v) + MAP_OPEN;
      Indent(start);
      buf := buf + MapLabel(v);
      buf := buf + MAP_OPEN;
      AppendAssoc3(head, IndentText(start), MapLabel(v), MAP_OPEN);
      assert buf == head + open;
      ghost var body := RenderEntries(v, start, |v.entries|);
      o := StringifyEntries(v, start);
      AppendAssoc(head, open, body.text);
      if o.Fail? {
        return;
      }
      var end := styles.Get("end");
      if end.Err? {
        return Fail(end.error);
      }
      ghost var close := IndentText(Standard(Add, end.value.indentLevel + 1));
      Indent(Standard(Add, end.value.indentLevel + 1));
      buf := buf + MAP_CLOSE;
      AppendAssoc3(head, open + body.text, close, MAP_CLOSE);
    }

    /** The `for (key, value) in self.iter()` loop of a map. */
    method StringifyEntries(v: Value, start: Style) returns (o: Outcome)
      requires IsMap(v)
      modifies this
      ensures buf == old(buf) + RenderEntries(v, start, |v.entries|).text
      ensures o == RenderEntries(v, start, |v.entries|).outcome
      decreases v, 0, |v.entries|
    {
      var i := 0;
      while i < |v.entries|
        invariant 0 <= i <= |v.entries|
        invariant RenderEntries(v, start, i).outcome == Pass
        invariant buf == old(buf) + RenderEntries(v, start, i).text
      {
        ghost var prev := RenderEntries(v, start, i).text;
        var r := StringifyEntry(v.entries[i], start);
        AppendAssoc(old(buf), prev, RenderEntry(v.entries[i], start).text);
        if r.Fail? {
          EntriesFailureSticks(v, start, i + 1, |v.entries|);
          return r;
        }
        i := i + 1;
      }
      o := Pass;
    }

    /** The body of the item loop. */
    method StringifyItem(item: Value, styles: Styles, end: Style) returns (o: Outcome)
      modifies this
      ensures buf == old(buf) + RenderItem(item, styles, end).text
      ensures o == RenderItem(item, styles, end).outcome
      decreases item, 4
    {
      ghost var head := buf;
      Indent(end.Plus(1));
      o := Stringify(item, styles);
      AppendAssoc(head, IndentText(end.Plus(1)), Render(item, styles).text);
      if o.Fail? {
        return;
      }
      buf := buf + COMMA;
      AppendAssoc(head, IndentText(end.Plus(1)) + Render(item, styles).text, COMMA);
    }

    /** The body of the entry loop. */
    method StringifyEntry(e: Entry, start: Style) returns (o: Outcome)
      modifies this
      ensures buf == old(buf) + RenderEntry(e, start).text
      ensures o == RenderEntry(e, start).outcome
      decreases e, 4
    {
      ghost var head := buf;
      ghost var key := Render(e.key, KeyStyles(start)).text;
      ghost var value := Render(e.value, ValueStyles(start)).text;
      o := Stringify(e.key, KeyStyles(start));
      if o.Fail? {
        return;
      }
      buf := buf + SEPARATOR;
      o := Stringify(e.value, ValueStyles(start));
      AppendAssoc3(head, key, SEPARATOR, value);
      if o.Fail? {
        return;
      }
      buf := buf + COMMA;
      AppendAssoc(head, key + SEPARATOR + value, COMMA);
    }

    /** `stringify_field`: `"name"` is looked up before anything is written. */
    method StringifyField(name: string, value: Value, styles: Styles) returns (o: Outcome)
      modifies this
      ensures buf == old(buf) + RenderField(name, value, styles).text
      ensures o == RenderField(name, value, styles).outcome
    {
      var nameStyle := styles.Get("name");
      if nameStyle.Err? {
        return Fail(nameStyle.error);
      }
      ghost var head := buf;
      Indent(nameStyle.value);
      buf := buf + name;
      buf := buf + EQUALS;
      AppendAssoc3(head, IndentText(nameStyle.value), name, EQUALS);
      ghost var prefix := IndentText(nameStyle.value) + name + EQUALS;
      o := Stringify(value, styles);
      AppendAssoc(head, prefix, Render(value, styles).text);
    }

    /** `stringify_primitive`: render with the empty table. */
    method StringifyPrimitive(v: Value) returns (o: Outcome)
      modifies this
      ensures buf == old(buf) + Render(v, Empty()).text
      ensures o == Render(v, Empty()).outcome
    {
      o := Stringify(v, StylesOf([]));
    }
  }

  /** `stringify_new`: render into a fresh buffer. */
  method StringifyNew(v: Value, styles: Styles) returns (r: Result<string>)
    ensures r.Ok? <==> Render(v, styles).outcome.Pass?
    ensures r.Ok? ==> r.value == Render(v, styles).text
    ensures r.Err? ==> r.error == Render(v, styles).outcome.error
  {
    var w := new Writer();
    var o := w.Stringify(v, styles);
    if o.Fail? {
      return Err(o.error);
    }
    r := Ok(w.buf);
  }

  /** `stringify_primitive_new`: render with the empty table into a fresh
      buffer. */
  method StringifyPrimitiveNew(v: Value) returns (r: Result<string>)
    ensures r.Ok? <==> Render(v, Empty()).outcome.Pass?
    ensures r.Ok? ==> r.value == Render(v, Empty()).text
    ensures r.Err? ==> r.error == Render(v, Empty()).outcome.error
  {
    var w := new Writer();
    var o := w.StringifyPrimitive(v);
    if o.Fail? {
      return Err(o.error);
    }
    r := Ok(w.buf);
  }

  // ---------------------------------------------------------------------
  // Early returns: once a loop step fails, the rest of the loop is skipped

  lemma {:induction false} ItemsFailureSticks(v: Value, styles: Styles, end: Style, m: nat, n: nat)
    requires v.Vec? && m <= n <= |v.items|
    requires RenderItems(v, styles, end, m).outcome.Fail?
    ensures RenderItems(v, styles, end, n) == RenderItems(v, styles, end, m)
    decreases n
  {
    if n > m {
      ItemsFailureSticks(v, styles, end, m, n - 1);
    }
  }

  lemma {:induction false} EntriesFailureSticks(v: Value, start: Style, m: nat, n: nat)
    requires IsMap(v) && m <= n <= |v.entries|
    requires RenderEntries(v, start, m).outcome.Fail?
    ensures RenderEntries(v, start, n) == RenderEntries(v, start, m)
    decreases n
  {
    if n > m {
      EntriesFailureSticks(v, start, m, n - 1);
    }
  }
}
