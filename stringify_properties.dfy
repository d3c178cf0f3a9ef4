/** What the four-style renderer promises: which of the four styles each impl
    reads, the decimal text of integers, the order of items and entries, the
    text of a `Style`, and where indentation is and is not written. */
module StringifyProperties {
  import opened Styling
  import opened Stringify

  // ---------------------------------------------------------------------
  // Leaves

  /** `bool`, `String`, `&str` and the integers ignore all four styles:
      strings are copied verbatim, the others written as their `Display`
      text. */
  lemma LeavesIgnoreStyles(d: Datum, pi: Style, pr: Style, ci: Style, cr: Style)
    requires d.Bool? || d.Str? || d.Int?
    ensures Text(d, pi, pr, ci, cr) == Text(d, Default(), Default(), Default(), Default())
    ensures d.Str? ==> Text(d, pi, pr, ci, cr) == d.s
    ensures d.Bool? ==> Text(d, pi, pr, ci, cr) == (if d.b then "true" else "false")
    ensures d.Int? ==> Text(d, pi, pr, ci, cr) == IntToString(d.i)
  {
  }

  /** A `Newline` reads only its first style, to indent itself. */
  lemma NewlineReadsParentInit(n: Newline, pi: Style, pr: Style, ci: Style, cr: Style)
    ensures Text(NewlineVal(n), pi, pr, ci, cr) == Text(NewlineVal(n), pi, Default(), Default(), Default())
    ensures Text(NewlineVal(n), pi, pr, ci, cr) == IndentText(pi) + NEWLINE_PREFIX + NewlineDebug(n)
  {
  }

  // ---------------------------------------------------------------------
  // Decimal text of integers

  predicate IsDigit(c: char)
  {
    '0' as int <= c as int <= '9' as int
  }

  /** The number a string of decimal digits denotes. */
  function DecimalValue(s: string): int
    requires forall i :: 0 <= i < |s| ==> IsDigit(s[i])
  {
    if |s| == 0 then 0
    else DecimalValue(s[..|s| - 1]) * 10 + (s[|s| - 1] as int - '0' as int)
  }

  /** Reading an integer back: an optional minus sign, then digits. */
  function ParseInt(s: string): int
    requires |s| > 0
    requires forall i :: (if s[0] == '-' then 1 else 0) <= i < |s| ==> IsDigit(s[i])
  {
    if s[0] == '-' then -DecimalValue(s[1..]) else DecimalValue(s)
  }

  /** `NatToString` writes digits only, with no leading zero, and they denote
      `n`. */
  lemma {:induction false} NatToStringDecimal(n: nat)
    ensures |NatToString(n)| > 0
    ensures forall i :: 0 <= i < |NatToString(n)| ==> IsDigit(NatToString(n)[i])
    ensures DecimalValue(NatToString(n)) == n
    ensures NatToString(n)[0] == '0' ==> n == 0
    decreases n
  {
    if n >= 10 {
      NatToStringDecimal(n / 10);
      var s := NatToString(n);
      assert s == NatToString(n / 10) + [DigitChar(n % 10)];
      assert s[..|s| - 1] == NatToString(n / 10);
    }
  }

  /** The text of an integer reads back as that integer, and starts with a
      minus sign exactly when the integer is negative. */
  lemma IntToStringRoundTrip(i: int)
    ensures |IntToString(i)| > 0
    ensures IntToString(i)[0] == '-' <==> i < 0
    ensures forall k :: (if i < 0 then 1 else 0) <= k < |IntToString(i)| ==> IsDigit(IntToString(i)[k])
    ensures ParseInt(IntToString(i)) == i
  {
    if i < 0 {
      NatToStringDecimal(-i);
      assert IntToString(i)[1..] == NatToString(-i);
    } else {
      NatToStringDecimal(i);
    }
  }

  /** Different integers have different texts. */
  lemma IntToStringInjective(i: int, j: int)
    ensures IntToString(i) == IntToString(j) ==> i == j
  {
    IntToStringRoundTrip(i);
    IntToStringRoundTrip(j);
  }

  // ---------------------------------------------------------------------
  // Containers

  /** An empty `Vec` is indented before the emptiness check, an empty
      `HashMap` is not indented at all. */
  lemma EmptyContainers(pi: Style, pr: Style, ci: Style, cr: Style)
    ensures Text(Vec([]), pi, pr, ci, cr) == IndentText(pi) + VEC_EMPTY
    ensures Text(HashMap([]), pi, pr, ci, cr) == HASH_EMPTY
  {
  }

  /** For example an empty `Vec` at `{Add, 1, INDENT}` starts a new line and
      indents once, while an empty `HashMap` there writes only its token. */
  lemma EmptyContainersAtLevelOne(pr: Style, ci: Style, cr: Style)
    ensures Text(Vec([]), Standard(Add, 1), pr, ci, cr) == "\n" + INDENT + VEC_EMPTY
    ensures Text(HashMap([]), Standard(Add, 1), pr, ci, cr) == HASH_EMPTY
  {
    assert Repeat(INDENT, 1) == Repeat(INDENT, 0) + INDENT;
  }

  /** The items of a `Vec`, front to back: an independent statement of the
      loop's order. */
  function JoinItems(items: seq<Datum>, pr: Style, ei: Style, er: Style): string
  {
    if |items| == 0 then "" else ItemText(items[0], pr, ei, er) + JoinItems(items[1..], pr, ei, er)
  }

  lemma {:induction false} JoinItemsSnoc(items: seq<Datum>, x: Datum, pr: Style, ei: Style, er: Style)
    ensures JoinItems(items + [x], pr, ei, er) == JoinItems(items, pr, ei, er) + ItemText(x, pr, ei, er)
    decreases |items|
  {
    if |items| > 0 {
      assert (items + [x])[1..] == items[1..] + [x];
      JoinItemsSnoc(items[1..], x, pr, ei, er);
      AppendAssoc(ItemText(items[0], pr, ei, er), JoinItems(items[1..], pr, ei, er), ItemText(x, pr, ei, er));
    } else {
      assert (items + [x])[1..] == [];
    }
  }

  lemma {:induction false} ItemsInOrderPrefix(d: Datum, pr: Style, ei: Style, er: Style, n: nat)
    requires d.Vec? && n <= |d.items|
    ensures ItemsText(d, pr, ei, er, n) == JoinItems(d.items[..n], pr, ei, er)
    decreases n
  {
    if n > 0 {
      ItemsInOrderPrefix(d, pr, ei, er, n - 1);
      assert d.items[..n] == d.items[..n - 1] + [d.items[n - 1]];
      JoinItemsSnoc(d.items[..n - 1], d.items[n - 1], pr, ei, er);
    }
  }

  /** A non-empty `Vec`: `indent(parentInit)`, `"Vec ["`, every item in
      index order as `indent(parentRest + 1)`, the item with `(eltInit,
      eltRest, default, default)` and `","`, then `indent(parentRest)` and
      `"]"`. */
  lemma VecInOrder(items: seq<Datum>, pi: Style, pr: Style, ei: Style, er: Style)
    requires |items| > 0
    ensures Text(Vec(items), pi, pr, ei, er)
            == IndentText(pi) + VEC_OPEN + JoinItems(items, pr, ei, er) + IndentText(pr) + VEC_CLOSE
  {
    ItemsInOrderPrefix(Vec(items), pr, ei, er, |items|);
    assert items[..|items|] == items;
  }

  /** The entries of a `HashMap`, front to back. */
  function JoinEntries(entries: seq<Pair>, ks: Style, vs: Style): string
  {
    if |entries| == 0 then "" else EntryText(entries[0], ks, vs) + JoinEntries(entries[1..], ks, vs)
  }

  lemma {:induction false} JoinEntriesSnoc(entries: seq<Pair>, e: Pair, ks: Style, vs: Style)
    ensures JoinEntries(entries + [e], ks, vs) == JoinEntries(entries, ks, vs) + EntryText(e, ks, vs)
    decreases |entries|
  {
    if |entries| > 0 {
      assert (entries + [e])[1..] == entries[1..] + [e];
      JoinEntriesSnoc(entries[1..], e, ks, vs);
      AppendAssoc(EntryText(entries[0], ks, vs), JoinEntries(entries[1..], ks, vs), EntryText(e, ks, vs));
    } else {
      assert (entries + [e])[1..] == [];
    }
  }

  lemma {:induction false} EntriesInOrderPrefix(d: Datum, ks: Style, vs: Style, n: nat)
    requires d.HashMap? && n <= |d.entries|
    ensures EntriesText(d, ks, vs, n) == JoinEntries(d.entries[..n], ks, vs)
    decreases n
  {
    if n > 0 {
      EntriesInOrderPrefix(d, ks, vs, n - 1);
      assert d.entries[..n] == d.entries[..n - 1] + [d.entries[n - 1]];
      JoinEntriesSnoc(d.entries[..n - 1], d.entries[n - 1], ks, vs);
    }
  }

  /** A non-empty `HashMap`: `indent(parentInit)`, `"HashMap {"`, every
      entry in iteration order as the key with `keyStyle` four times, `" :
      "`, the value with `valueStyle` four times and `","`, then a line
      break, `parentRest`'s level plus one default units (`INDENT`, not
      `parentRest`'s unit) and `"}"`. */
  lemma HashMapInOrder(entries: seq<Pair>, pi: Style, pr: Style, ks: Style, vs: Style)
    requires |entries| > 0
    ensures Text(HashMap(entries), pi, pr, ks, vs)
            == IndentText(pi) + HASH_OPEN + JoinEntries(entries, ks, vs)
               + IndentText(Standard(Add, pr.indentLevel + 1)) + MAP_CLOSE
  {
    EntriesInOrderPrefix(HashMap(entries), ks, vs, |entries|);
    assert entries[..|entries|] == entries;
  }

  /** A `Vec` inside a `Vec`: the inner `Vec` opens with `eltInit`, indents
      its items with `eltRest + 1` and closes with `eltRest`; the items
      themselves receive only default styles. */
  lemma NestedVecDefaults(x: Datum, pi: Style, pr: Style, ei: Style, er: Style)
    ensures var inner := IndentText(ei) + VEC_OPEN + ItemText(x, er, Default(), Default())
                         + IndentText(er) + VEC_CLOSE;
            Text(Vec([Vec([x])]), pi, pr, ei, er)
            == IndentText(pi) + VEC_OPEN + ItemText(Vec([x]), pr, ei, er) + IndentText(pr) + VEC_CLOSE
            && Text(Vec([x]), ei, er, Default(), Default()) == inner
  {
    SingleItemText(Vec([x]), pi, pr, ei, er);
    SingleItemText(x, ei, er, Default(), Default());
  }

  /** A `Vec` of one item. */
  lemma SingleItemText(x: Datum, pi: Style, pr: Style, ei: Style, er: Style)
    ensures Text(Vec([x]), pi, pr, ei, er)
            == IndentText(pi) + VEC_OPEN + ItemText(x, pr, ei, er) + IndentText(pr) + VEC_CLOSE
  {
    assert ItemsText(Vec([x]), pr, ei, er, 1) == "" + ItemText(x, pr, ei, er);
  }

  // ---------------------------------------------------------------------
  // Result

  /** The values whose text starts with `indent(parentInit)`. */
  predicate OpensWithIndent(d: Datum)
  {
    d.NewlineVal? || d.StyleVal? || d.Vec? || d.ResultOk? || d.ResultErr?
    || (d.HashMap? && |d.entries| > 0)
  }

  lemma OpensWithIndentPrefix(d: Datum, pi: Style, pr: Style, ci: Style, cr: Style)
    requires OpensWithIndent(d)
    ensures IndentText(pi) <= Text(d, pi, pr, ci, cr)
  {
    var t := Text(d, pi, pr, ci, cr);
    assert t[..|IndentText(pi)|] == IndentText(pi);
  }

  /** `Ok(x)` and `Err(x)` pass their own four styles on to `x`, so an `x`
      that indents itself is indented with `parentInit` a second time, right
      after the opening. */
  lemma ResultIndentsTwice(x: Datum, pi: Style, pr: Style, ci: Style, cr: Style)
    requires OpensWithIndent(x)
    ensures IndentText(pi) + OK_OPEN + IndentText(pi) <= Text(ResultOk(x), pi, pr, ci, cr)
    ensures IndentText(pi) + ERR_OPEN + IndentText(pi) <= Text(ResultErr(x), pi, pr, ci, cr)
  {
    OpensWithIndentPrefix(x, pi, pr, ci, cr);
    var inner := Text(x, pi, pr, ci, cr);
    var rest := inner[|IndentText(pi)|..];
    assert inner == IndentText(pi) + rest;
    AppendAssoc(IndentText(pi) + OK_OPEN, IndentText(pi), rest);
    AppendAssoc(IndentText(pi) + ERR_OPEN, IndentText(pi), rest);
  }

  // ---------------------------------------------------------------------
  // Style

  /** A `Style` writes `"Style {"`, each field on a new line as `name=value`,
      with its policy as `Newline::Add` or `Newline::Omit` and its level in
      decimal, then `indent(parentRest)` and `"}"`. Its indentation unit is
      not written, and the child styles are not read. */
  lemma StyleTextShape(s: Style, pi: Style, pr: Style, ci: Style, cr: Style)
    ensures Text(StyleVal(s), pi, pr, ci, cr)
            == IndentText(pi) + STYLE_OPEN
               + ("\n" + "newline" + EQUALS + (NEWLINE_PREFIX + NewlineDebug(s.newline)))
               + ("\n" + "indent_level" + EQUALS + IntToString(s.indentLevel))
               + IndentText(pr) + MAP_CLOSE
  {
    var vs := FIELD_VALUE_STYLE;
    FieldNameIndent();
    FieldValueIndent();
    AppendAssoc("", NEWLINE_PREFIX, NewlineDebug(s.newline));
    assert Text(NewlineVal(s.newline), vs, vs, vs, vs) == NEWLINE_PREFIX + NewlineDebug(s.newline);
    assert FieldText("newline", NewlineVal(s.newline), FIELD_NAME_STYLE, vs)
        == "\n" + "newline" + EQUALS + (NEWLINE_PREFIX + NewlineDebug(s.newline));
    assert FieldText("indent_level", Int(s.indentLevel), FIELD_NAME_STYLE, vs)
        == "\n" + "indent_level" + EQUALS + IntToString(s.indentLevel);
  }

  /** Two styles that differ only in their unit render alike. */
  lemma StyleUnitNotWritten(s: Style, unit: string, pi: Style, pr: Style, ci: Style, cr: Style)
    ensures Text(StyleVal(s), pi, pr, ci, cr) == Text(StyleVal(Style(s.newline, s.indentLevel, unit)), pi, pr, ci, cr)
  {
    StyleTextShape(s, pi, pr, ci, cr);
    StyleTextShape(Style(s.newline, s.indentLevel, unit), pi, pr, ci, cr);
  }

  // ---------------------------------------------------------------------
  // Fields

  /** `stringify_field` writes `indent(nameStyle)`, the name and `"="`, then
      the value with `valueStyle` in all four positions; nothing is written
      between the `"="` and the value. */
  lemma FieldOfLeaf(name: string, value: Datum, ns: Style, vs: Style)
    requires value.Bool? || value.Str? || value.Int?
    ensures FieldText(name, value, ns, vs)
            == IndentText(ns) + name + EQUALS + Text(value, Default(), Default(), Default(), Default())
  {
    LeavesIgnoreStyles(value, vs, vs, vs, vs);
  }

  // ---------------------------------------------------------------------
  // Proof helpers: each states one fact about the two fixed field styles,
  // kept apart so that the solver meets it only where it is needed

  lemma FieldNameIndent()
    ensures IndentText(FIELD_NAME_STYLE) == "\n"
  {
  }

  lemma FieldValueIndent()
    ensures IndentText(FIELD_VALUE_STYLE) == ""
  {
  }
}
