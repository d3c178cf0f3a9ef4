/** What the role-table renderer promises: which roles it needs, when it
    fails and with which role, and the exact text of containers of leaves. */
module Stringify2Properties {
  import opened Styling
  import opened Stringify2

  /** A value that renders without any lookup: a leaf or an empty container. */
  predicate Flat(v: Value)
  {
    match v
    case Leaf(_) => true
    case Vec(items) => |items| == 0
    case HashMap(entries) => |entries| == 0
    case BTreeMap(entries) => |entries| == 0
  }

  /** The text of a flat value. */
  function FlatText(v: Value): string
    requires Flat(v)
  {
    match v
    case Leaf(t) => t
    case Vec(_) => VEC_EMPTY
    case HashMap(_) => HASH_EMPTY
    case BTreeMap(_) => BTREE_EMPTY
  }

  /** An independent statement of when `stringify` succeeds: a container that
      is not empty needs `"start"` and `"end"` in its table; the items of a
      `Vec` see the same table, while the keys and values of a map see a table
      with neither role, so they must be flat. */
  predicate Renders(v: Value, styles: Styles)
    decreases v
  {
    match v
    case Leaf(_) => true
    case Vec(items) =>
      |items| == 0
      || ("start" in styles.table && "end" in styles.table
          && forall i :: 0 <= i < |items| ==> Renders(items[i], styles))
    case HashMap(entries) =>
      |entries| == 0
      || ("start" in styles.table && "end" in styles.table
          && forall i :: 0 <= i < |entries| ==> Flat(entries[i].key) && Flat(entries[i].value))
    case BTreeMap(entries) =>
      |entries| == 0
      || ("start" in styles.table && "end" in styles.table
          && forall i :: 0 <= i < |entries| ==> Flat(entries[i].key) && Flat(entries[i].value))
  }

  // ---------------------------------------------------------------------
  // The fresh tables built for map keys and values

  /** The child tables are exactly what `styles! { "key" => ... }` and
      `styles! { "value" => ... }` build, and hold only that one role. */
  lemma ChildTables(start: Style)
    ensures KeyStyles(start) == StylesOf([("key", Standard(Add, start.indentLevel + 1))])
    ensures ValueStyles(start) == StylesOf([("value", Standard(Add, start.indentLevel + 1))])
    ensures KeyStyles(start).table.Keys == {"key"}
    ensures ValueStyles(start).table.Keys == {"value"}
  {
    assert [("key", Standard(Add, start.indentLevel + 1))][..0] == [];
    assert [("value", Standard(Add, start.indentLevel + 1))][..0] == [];
  }

  /** In a table with neither `"start"` nor `"end"` exactly the flat values
      render; a non-empty `Vec` fails on `"end"` (its first lookup), a
      non-empty map on `"start"`, and neither writes anything. */
  lemma WithoutContainerRoles(v: Value, styles: Styles)
    requires "start" !in styles.table && "end" !in styles.table
    ensures Render(v, styles).outcome.Pass? <==> Flat(v)
    ensures Flat(v) ==> Render(v, styles) == Written(FlatText(v), Pass)
    ensures !Flat(v) && v.Vec? ==> Render(v, styles) == Written("", Fail(StyleNotFound("end")))
    ensures !Flat(v) && IsMap(v) ==> Render(v, styles) == Written("", Fail(StyleNotFound("start")))
  {
  }

  /** A flat value renders the same with every table, even the empty one. */
  lemma FlatRendersAnywhere(v: Value, styles: Styles)
    requires Flat(v)
    ensures Render(v, styles) == Written(FlatText(v), Pass)
  {
  }

  // ---------------------------------------------------------------------
  // A non-empty container once its roles are resolved

  lemma VecUnfold(v: Value, styles: Styles)
    requires v.Vec? && |v.items| > 0 && "start" in styles.table && "end" in styles.table
    ensures Render(v, styles) == RenderVecWith(v, styles, styles.table["start"], styles.table["end"])
  {
    assert Render(v, styles) == RenderVec(v, styles);
  }

  lemma MapUnfold(v: Value, styles: Styles)
    requires IsMap(v) && |v.entries| > 0 && "start" in styles.table
    ensures Render(v, styles) == RenderMapWith(v, styles, styles.table["start"])
  {
    assert Render(v, styles) == RenderMap(v, styles);
  }

  // ---------------------------------------------------------------------
  // When rendering succeeds

  /** `stringify` returns `Ok` exactly when `Renders` holds. */
  lemma {:induction false} RenderPassIff(v: Value, styles: Styles)
    ensures Render(v, styles).outcome.Pass? <==> Renders(v, styles)
    decreases v, 1
  {
    match v
    case Leaf(_) =>
    case Vec(items) =>
      if |items| > 0 && "start" in styles.table && "end" in styles.table {
        VecUnfold(v, styles);
        ItemsPassIff(v, styles, styles.table["end"], |items|);
      }
    case HashMap(entries) =>
      if |entries| > 0 && "start" in styles.table {
        MapUnfold(v, styles);
        EntriesPassIff(v, styles.table["start"], |entries|);
      }
    case BTreeMap(entries) =>
      if |entries| > 0 && "start" in styles.table {
        MapUnfold(v, styles);
        EntriesPassIff(v, styles.table["start"], |entries|);
      }
  }

  lemma {:induction false} ItemsPassIff(v: Value, styles: Styles, end: Style, n: nat)
    requires v.Vec? && n <= |v.items|
    ensures RenderItems(v, styles, end, n).outcome.Pass?
            <==> forall i :: 0 <= i < n ==> Renders(v.items[i], styles)
    decreases v, 0, n
  {
    if n > 0 {
      ItemsPassIff(v, styles, end, n - 1);
      RenderPassIff(v.items[n - 1], styles);
    }
  }

  lemma {:induction false} EntriesPassIff(v: Value, start: Style, n: nat)
    requires IsMap(v) && n <= |v.entries|
    ensures RenderEntries(v, start, n).outcome.Pass?
            <==> forall i :: 0 <= i < n ==> Flat(v.entries[i].key) && Flat(v.entries[i].value)
    decreases n
  {
    if n > 0 {
      EntriesPassIff(v, start, n - 1);
      ChildTables(start);
      WithoutContainerRoles(v.entries[n - 1].key, KeyStyles(start));
      WithoutContainerRoles(v.entries[n - 1].value, ValueStyles(start));
    }
  }

  /** `stringify_primitive` (the empty table) succeeds exactly on flat
      values. */
  lemma PrimitivePassIff(v: Value)
    ensures Render(v, Empty()).outcome.Pass? <==> Flat(v)
    ensures Flat(v) ==> Render(v, Empty()).text == FlatText(v)
  {
    WithoutContainerRoles(v, Empty());
  }

  // ---------------------------------------------------------------------
  // Which errors can occur

  /** A render fails only on `"start"` or `"end"`, whatever the nesting:
      the error of an inner value reaches the caller unchanged. */
  lemma {:induction false} FailureNamesContainerRole(v: Value, styles: Styles)
    ensures Render(v, styles).outcome.Fail?
            ==> (Render(v, styles).outcome.error.name == "start"
                 || Render(v, styles).outcome.error.name == "end")
    decreases v, 1
  {
    match v
    case Leaf(_) =>
    case Vec(items) =>
      if |items| > 0 && "start" in styles.table && "end" in styles.table {
        VecUnfold(v, styles);
        ItemsFailureNames(v, styles, styles.table["end"], |items|);
      }
    case HashMap(entries) =>
      if |entries| > 0 && "start" in styles.table {
        MapUnfold(v, styles);
        EntriesFailureNames(v, styles.table["start"], |entries|);
      }
    case BTreeMap(entries) =>
      if |entries| > 0 && "start" in styles.table {
        MapUnfold(v, styles);
        EntriesFailureNames(v, styles.table["start"], |entries|);
      }
  }

  lemma {:induction false} ItemsFailureNames(v: Value, styles: Styles, end: Style, n: nat)
    requires v.Vec? && n <= |v.items|
    ensures RenderItems(v, styles, end, n).outcome.Fail?
            ==> (RenderItems(v, styles, end, n).outcome.error.name == "start"
                 || RenderItems(v, styles, end, n).outcome.error.name == "end")
    decreases v, 0, n
  {
    if n > 0 {
      ItemsFailureNames(v, styles, end, n - 1);
      FailureNamesContainerRole(v.items[n - 1], styles);
    }
  }

  lemma {:induction false} EntriesFailureNames(v: Value, start: Style, n: nat)
    requires IsMap(v) && n <= |v.entries|
    ensures RenderEntries(v, start, n).outcome.Fail?
            ==> (RenderEntries(v, start, n).outcome.error.name == "start"
                 || RenderEntries(v, start, n).outcome.error.name == "end")
    decreases n
  {
    if n > 0 {
      EntriesFailureNames(v, start, n - 1);
      ChildTables(start);
      WithoutContainerRoles(v.entries[n - 1].key, KeyStyles(start));
      WithoutContainerRoles(v.entries[n - 1].value, ValueStyles(start));
    }
  }

  /** `stringify_field` fails on `"name"` before writing anything, and
      otherwise only where the value itself fails. */
  lemma FieldFailure(name: string, value: Value, styles: Styles)
    ensures "name" !in styles.table
            ==> RenderField(name, value, styles) == Written("", Fail(StyleNotFound("name")))
    ensures "name" in styles.table
            ==> (RenderField(name, value, styles).outcome.Pass? <==> Renders(value, styles))
  {
    RenderPassIff(value, styles);
  }

  // ---------------------------------------------------------------------
  // Lookup order and partial output

  /** A non-empty `Vec` looks up `"end"`, then `"start"`, and writes nothing
      when either is missing. */
  lemma VecLookups(items: seq<Value>, styles: Styles)
    requires |items| > 0
    ensures "end" !in styles.table
            ==> Render(Vec(items), styles) == Written("", Fail(StyleNotFound("end")))
    ensures "end" in styles.table && "start" !in styles.table
            ==> Render(Vec(items), styles) == Written("", Fail(StyleNotFound("start")))
  {
  }

  /** A non-empty map looks up `"start"` before anything else and writes
      nothing when it is missing, whatever else the table holds. */
  lemma MapLookups(v: Value, styles: Styles)
    requires IsMap(v) && |v.entries| > 0 && "start" !in styles.table
    ensures Render(v, styles) == Written("", Fail(StyleNotFound("start")))
  {
  }

  /** The text of the entries of a map whose keys and values are flat. */
  function FlatEntriesText(entries: seq<Entry>): string
    requires forall i :: 0 <= i < |entries| ==> Flat(entries[i].key) && Flat(entries[i].value)
  {
    if |entries| == 0 then ""
    else
      var e := entries[|entries| - 1];
      FlatEntriesText(entries[..|entries| - 1]) + FlatText(e.key) + SEPARATOR + FlatText(e.value) + COMMA
  }

  lemma {:induction false} FlatEntries(v: Value, start: Style, n: nat)
    requires IsMap(v) && n <= |v.entries|
    requires forall i :: 0 <= i < |v.entries| ==> Flat(v.entries[i].key) && Flat(v.entries[i].value)
    ensures RenderEntries(v, start, n) == Written(FlatEntriesText(v.entries[..n]), Pass)
  {
    if n > 0 {
      FlatEntries(v, start, n - 1);
      assert v.entries[..n][..n - 1] == v.entries[..n - 1];
      var e := v.entries[n - 1];
      FlatRendersAnywhere(e.key, KeyStyles(start));
      FlatRendersAnywhere(e.value, ValueStyles(start));
      AppendAssoc3(FlatEntriesText(v.entries[..n - 1]), FlatText(e.key), SEPARATOR, FlatText(e.value));
      AppendAssoc(FlatEntriesText(v.entries[..n - 1]), FlatText(e.key) + SEPARATOR + FlatText(e.value), COMMA);
    }
  }

  /** A non-empty map with flat keys and values: the opening at `"start"`,
      every entry as `key : value,` in iteration order, then a line break,
      `"end"`'s level plus one default units (`INDENT`, not `"end"`'s unit)
      and `"}"`. Without `"end"` the call fails
      only after the opening and every entry are written, and that partial
      output stays in the buffer. */
  lemma MapOfFlatEntries(v: Value, styles: Styles)
    requires IsMap(v) && |v.entries| > 0 && "start" in styles.table
    requires forall i :: 0 <= i < |v.entries| ==> Flat(v.entries[i].key) && Flat(v.entries[i].value)
    ensures var opening := IndentText(styles.table["start"]) + MapLabel(v) + MAP_OPEN + FlatEntriesText(v.entries);
            Render(v, styles)
              == if "end" in styles.table
                 then Written(opening + IndentText(Standard(Add, styles.table["end"].indentLevel + 1)) + MAP_CLOSE, Pass)
                 else Written(opening, Fail(StyleNotFound("end")))
  {
    MapUnfold(v, styles);
    FlatEntries(v, styles.table["start"], |v.entries|);
    assert v.entries[..|v.entries|] == v.entries;
  }

  /** The text of the items of a `Vec` that are all flat. */
  function FlatItemsText(items: seq<Value>, end: Style): string
    requires forall i :: 0 <= i < |items| ==> Flat(items[i])
  {
    if |items| == 0 then ""
    else FlatItemsText(items[..|items| - 1], end) + IndentText(end.Plus(1)) + FlatText(items[|items| - 1]) + COMMA
  }

  lemma {:induction false} FlatItems(v: Value, styles: Styles, end: Style, n: nat)
    requires v.Vec? && n <= |v.items|
    requires forall i :: 0 <= i < |v.items| ==> Flat(v.items[i])
    ensures RenderItems(v, styles, end, n) == Written(FlatItemsText(v.items[..n], end), Pass)
  {
    if n > 0 {
      FlatItems(v, styles, end, n - 1);
      assert v.items[..n][..n - 1] == v.items[..n - 1];
      var item := v.items[n - 1];
      FlatRendersAnywhere(item, styles);
      AppendAssoc(FlatItemsText(v.items[..n - 1], end), IndentText(end.Plus(1)), FlatText(item));
      AppendAssoc(FlatItemsText(v.items[..n - 1], end), IndentText(end.Plus(1)) + FlatText(item), COMMA);
    }
  }

  /** A non-empty `Vec` of flat items: `indent(start)`, `"Vec ["`, each item
      as `indent(end + 1)`, its text and `","`, then `indent(end)` and
      `"]"`. */
  lemma VecOfFlatItems(items: seq<Value>, styles: Styles)
    requires |items| > 0 && "start" in styles.table && "end" in styles.table
    requires forall i :: 0 <= i < |items| ==> Flat(items[i])
    ensures Render(Vec(items), styles)
            == Written(IndentText(styles.table["start"]) + VEC_OPEN
                       + FlatItemsText(items, styles.table["end"])
                       + IndentText(styles.table["end"]) + VEC_CLOSE, Pass)
  {
    VecUnfold(Vec(items), styles);
    FlatItems(Vec(items), styles, styles.table["end"], |items|);
    assert items[..|items|] == items;
  }

  /** The items of a `Vec`, front to back, each as `indent(end + 1)`, its own
      rendering and `","`: an independent statement of the loop's order. */
  function JoinRendered(items: seq<Value>, styles: Styles, end: Style): string
  {
    if |items| == 0 then ""
    else IndentText(end.Plus(1)) + Render(items[0], styles).text + COMMA + JoinRendered(items[1..], styles, end)
  }

  lemma {:induction false} JoinRenderedSnoc(items: seq<Value>, x: Value, styles: Styles, end: Style)
    ensures JoinRendered(items + [x], styles, end)
            == JoinRendered(items, styles, end) + (IndentText(end.Plus(1)) + Render(x, styles).text + COMMA)
    decreases |items|
  {
    var piece := IndentText(end.Plus(1)) + Render(x, styles).text + COMMA;
    if |items| > 0 {
      assert (items + [x])[1..] == items[1..] + [x];
      JoinRenderedSnoc(items[1..], x, styles, end);
      AppendAssoc(IndentText(end.Plus(1)) + Render(items[0], styles).text + COMMA,
                  JoinRendered(items[1..], styles, end), piece);
    } else {
      assert (items + [x])[1..] == [];
      assert JoinRendered([x], styles, end) == piece + "";
    }
  }

  /** While every item passes, the first `n` turns of the item loop write the
      front-to-back join of the first `n` items. */
  lemma {:induction false} ItemsInOrder(v: Value, styles: Styles, end: Style, n: nat)
    requires v.Vec? && n <= |v.items|
    requires forall i :: 0 <= i < n ==> Render(v.items[i], styles).outcome.Pass?
    ensures RenderItems(v, styles, end, n) == Written(JoinRendered(v.items[..n], styles, end), Pass)
    decreases n
  {
    if n > 0 {
      ItemsInOrder(v, styles, end, n - 1);
      assert v.items[..n] == v.items[..n - 1] + [v.items[n - 1]];
      JoinRenderedSnoc(v.items[..n - 1], v.items[n - 1], styles, end);
      var r := Render(v.items[n - 1], styles);
      AppendAssoc(JoinRendered(v.items[..n - 1], styles, end), IndentText(end.Plus(1)) + r.text, COMMA);
    }
  }

  /** A non-empty `Vec` whose items all render, whatever they are:
      `indent(start)`, `"Vec ["`, every item in index order as
      `indent(end + 1)`, its rendering with the same table and `","`, then
      `indent(end)` and `"]"`. */
  lemma VecInOrder(items: seq<Value>, styles: Styles)
    requires |items| > 0 && "start" in styles.table && "end" in styles.table
    requires forall i :: 0 <= i < |items| ==> Renders(items[i], styles)
    ensures Render(Vec(items), styles)
            == Written(IndentText(styles.table["start"]) + VEC_OPEN
                       + JoinRendered(items, styles, styles.table["end"])
                       + IndentText(styles.table["end"]) + VEC_CLOSE, Pass)
  {
    forall i | 0 <= i < |items|
      ensures Render(items[i], styles).outcome.Pass?
    {
      RenderPassIff(items[i], styles);
    }
    VecUnfold(Vec(items), styles);
    ItemsInOrder(Vec(items), styles, styles.table["end"], |items|);
    assert items[..|items|] == items;
  }

  // ---------------------------------------------------------------------
  // Concrete renderings

  /** The table `styles! { k1 => s1, k2 => s2 }`. */
  lemma TwoPairTable(k1: string, s1: Style, k2: string, s2: Style)
    ensures StylesOf([(k1, s1), (k2, s2)]).table == map[k1 := s1][k2 := s2]
  {
    assert [(k1, s1), (k2, s2)][..1] == [(k1, s1)];
    assert [(k1, s1)][..0] == [];
  }

  /** Two flat items, each as `indent(end + 1)`, its text and `","`. */
  lemma TwoFlatItems(x: Value, y: Value, end: Style)
    requires Flat(x) && Flat(y)
    ensures FlatItemsText([x, y], end)
            == IndentText(end.Plus(1)) + FlatText(x) + COMMA + IndentText(end.Plus(1)) + FlatText(y) + COMMA
  {
    var unit := IndentText(end.Plus(1));
    assert [x, y][..1] == [x];
    assert [x][..0] == [];
    assert "" + unit == unit;
    assert FlatItemsText([x], end) == unit + FlatText(x) + COMMA;
  }

  /** `vec![a, b]` with `"start"` and `"end"` both `{Omit, 0, INDENT}`: the
      items are indented by `end + 1`, which keeps the `Omit` policy, so no
      line break is written anywhere: the text is `"Vec [    a,    b,]"`. */
  lemma TwoItemVec(a: string, b: string)
    ensures Render(Vec([Leaf(a), Leaf(b)]),
                   StylesOf([("start", Default()), ("end", Default())]))
            == Written(VEC_OPEN + INDENT + a + COMMA + INDENT + b + COMMA + VEC_CLOSE, Pass)
  {
    TwoPairTable("start", Default(), "end", Default());
    TwoItemVecWith(a, b, StylesOf([("start", Default()), ("end", Default())]));
  }

  lemma TwoItemVecWith(a: string, b: string, styles: Styles)
    requires styles.table == map["start" := Default()]["end" := Default()]
    ensures Render(Vec([Leaf(a), Leaf(b)]), styles)
            == Written(VEC_OPEN + INDENT + a + COMMA + INDENT + b + COMMA + VEC_CLOSE, Pass)
  {
    VecOfFlatItems([Leaf(a), Leaf(b)], styles);
    TwoItemVecText(a, b);
  }

  lemma TwoItemVecText(a: string, b: string)
    ensures IndentText(Default()) + VEC_OPEN + FlatItemsText([Leaf(a), Leaf(b)], Default())
            + IndentText(Default()) + VEC_CLOSE
            == VEC_OPEN + INDENT + a + COMMA + INDENT + b + COMMA + VEC_CLOSE
  {
    DefaultIndentEmpty();
    DefaultIndentPlusOne();
    TwoFlatItems(Leaf(a), Leaf(b), Default());
    Regroup(VEC_OPEN, INDENT, a, COMMA, b, VEC_CLOSE);
  }

  /** A `Vec` of one item that renders: `indent(start)`, `"Vec ["`,
      `indent(end + 1)`, the item, `","`, `indent(end)`, `"]"`. */
  lemma SingleItemVec(item: Value, styles: Styles)
    requires "start" in styles.table && "end" in styles.table
    requires Render(item, styles).outcome == Pass
    ensures var start, end := styles.table["start"], styles.table["end"];
            Render(Vec([item]), styles)
            == Written(IndentText(start) + VEC_OPEN + IndentText(end.Plus(1)) + Render(item, styles).text
                       + COMMA + IndentText(end) + VEC_CLOSE, Pass)
  {
    var v := Vec([item]);
    var start, end := styles.table["start"], styles.table["end"];
    VecUnfold(v, styles);
    assert v.items[..0] == [];
    var unit := IndentText(end.Plus(1));
    var t := Render(item, styles).text;
    assert RenderItems(v, styles, end, 1) == Written(unit + t + COMMA, Pass);
    var open := IndentText(start) + VEC_OPEN;
    AppendAssoc(open, unit + t, COMMA);
    AppendAssoc(open, unit, t);
  }

  /** Items of a `Vec` nested in a `Vec` share the outer table, so they are
      indented by the same `end + 1` as the outer items, not one level
      deeper: `vec![vec![x]]` writes the same item indentation `u` at both
      depths. */
  lemma NestedVecSameIndent(x: string, styles: Styles)
    requires "start" in styles.table && "end" in styles.table
    ensures var s, u, e := IndentText(styles.table["start"]),
                           IndentText(styles.table["end"].Plus(1)),
                           IndentText(styles.table["end"]);
            var inner := s + VEC_OPEN + u + x + COMMA + e + VEC_CLOSE;
            Render(Vec([Leaf(x)]), styles) == Written(inner, Pass)
            && Render(Vec([Vec([Leaf(x)])]), styles)
               == Written(s + VEC_OPEN + u + inner + COMMA + e + VEC_CLOSE, Pass)
  {
    SingleItemVec(Leaf(x), styles);
    SingleItemVec(Vec([Leaf(x)]), styles);
  }

  /** `stringify_field` with name `count`, value `5` and `"name"` at
      `{Add, 1, INDENT}`. */
  lemma CountField()
    ensures RenderField("count", Leaf("5"), StylesOf([("name", Standard(Add, 1))]))
            == Written("\n    count=5", Pass)
  {
    StylesOfLastWins([("name", Standard(Add, 1))], "name");
    assert IndentText(Standard(Add, 1)) == "\n    ";
  }

  /** Empty containers need no role: they render with the empty table. */
  lemma EmptyContainers()
    ensures Render(Vec([]), Empty()) == Written("Vec []", Pass)
    ensures Render(HashMap([]), Empty()) == Written("HashMap {}", Pass)
    ensures Render(BTreeMap([]), Empty()) == Written("BTreeMap {}", Pass)
  {
  }

  // ---------------------------------------------------------------------
  // Proof helpers: regrouping string appends

  lemma Regroup(o: string, u: string, a: string, c: string, b: string, e: string)
    ensures "" + o + (u + a + c + u + b + c) + "" + e == o + u + a + c + u + b + c + e
  {
    AppendAssoc(o, u + a + c + u + b, c);
    AppendAssoc(o, u + a + c + u, b);
    AppendAssoc(o, u + a + c, u);
    AppendAssoc(o, u + a, c);
    AppendAssoc(o, u, a);
  }
}
