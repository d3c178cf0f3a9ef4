# stringify, modelled in Dafny

`stringify` is a small Rust library. It pretty-prints values with control over
indentation. The layout directive is a `Style`, which has three fields:

- a newline policy, `Add` or `Omit`;
- an indentation level;
- an indentation unit, by default four spaces.

The *indentation step* is shared by every renderer. When the policy is `Add`
it writes a line break, and then it writes the unit `level` times.

The library has two renderers:

- **`Stringify2`** (`src/stringify.rs`) is the role-table renderer. Every
  value renders into a writer given a `Styles` table, which maps role names
  to styles.
  - A non-empty `Vec` looks up the roles `"end"` and `"start"`.
  - A non-empty `HashMap` or `BTreeMap` looks up `"start"` before it writes
    anything, and `"end"` only after all of its entries.
  - The keys and values of a map are rendered with fresh one-role tables.
  - A missing role is the error `StyleNotFound{name}`. This error propagates
    with `?` and leaves the text already written in the buffer.
- **`Stringify`** (`src/lib.rs`) is the older renderer. Every value renders
  into a `String` given four styles (`parent_init`, `parent_rest`,
  `child_init`, `child_rest`). It covers `Vec`, `HashMap`, `Result`, `Style`,
  `Newline`, `bool`, strings and integers, and it cannot fail.

The project has six files:

| file | module | models |
|---|---|---|
| `styling.dfy` | `Styling` | `src/styles.rs`: `Style`, its arithmetic, `Styles`, the `styles!` fold. Also the text of the indentation step, shared by both renderers. |
| `stringify2.dfy` | `Stringify2` | `src/stringify.rs`: the pure functions `Render…`, which give what each call appends and how it ends. The class `Writer`, whose methods append to a `buf` field with the same loops as the source. Each method is proved to append exactly what its `Render…` function says. |
| `stringify2_properties.dfy` | `Stringify2Properties` | When `stringify` succeeds. Which role a failure names. The partial output left by a failure. Closed forms and examples. |
| `stringify.dfy` | `Stringify` | `src/lib.rs`: the pure function `Text` and its helpers. The class `StringBuffer`, whose methods append to a `buffer` field and are proved against `Text`. |
| `stringify_properties.dfy` | `StringifyProperties` | Which styles each impl reads. Round trip of the decimal text of integers. Item and entry order against a front-to-back reference definition. The layout of `Style`, nested `Vec` and `Result`. |
| `renderers_agree.dfy` | `RenderersAgree` | The two renderers agree on non-empty `Vec`s and `HashMap`s of strings, and differ on an empty `Vec` whenever `indent(parentInit)` writes something. |

## Layout notes

- **`Vec` items in `Stringify2` follow the newline policy of `"end"`.** A
  non-empty `Vec` indents each item with `end + 1` (`src/stringify.rs:146`),
  and `+` keeps the newline policy of `end` (`src/styles.rs:92-98`). An
  `"end"` with policy `Add` writes a line break before every item and before
  the `"]"`; one with policy `Omit` writes none. So `vec![a, b]` with
  `"start"` and `"end"` both `{Omit, 0}` is `"Vec [    a,    b,]"`:
  `Stringify2Properties.TwoItemVec`.
- **Nesting does not deepen the indentation in `Stringify2`.** A `Vec`
  passes its own table on to its items (`src/stringify.rs:147`), so the
  items at every depth are indented with the same `end + 1`:
  `Stringify2Properties.NestedVecSameIndent`.
- **Containers inside maps fail.** Map keys and values are rendered with
  tables that hold only `"key"` or `"value"` (`src/stringify.rs:85-91`).
  A non-empty container as a key or value therefore fails with
  `StyleNotFound` naming `"start"` or `"end"`:
  `Stringify2Properties.RenderPassIff`.
- **`Style - n` below zero.** The level is a `usize` and the subtraction
  (`src/styles.rs:119`, `:131`) panics on underflow in a debug build, so
  `Minus` requires `n <= indentLevel`.
- **Empty `Vec`s.** The four-style renderer indents an empty `Vec` with
  `parentInit` before writing `"Vec []"` (`src/lib.rs:122-126`); the
  role-table renderer writes `"Vec []"` alone (`src/stringify.rs:138-141`):
  `RenderersAgree.EmptyVecDiffers`.

## Model

| member | source | states |
|---|---|---|
| Styling.Style.WithNewline | src/styles.rs:62-68 | the copy has the given policy; level and unit are unchanged |
| Styling.Style.WithIndentLevel | src/styles.rs:70-76 | the copy has the given level; policy and unit are unchanged |
| Styling.Style.Plus | src/styles.rs:89-99 | `s + n` raises the level by `n` and keeps policy and unit |
| Styling.Style.PlusStyle | src/styles.rs:101-111 | `s + t` adds `t`'s level and keeps `s`'s policy and unit |
| Styling.Style.Minus | src/styles.rs:113-123 | `s - n`, defined only when `n <= level` (usize underflow); the result's level plus `n` is the old level, and the other fields are kept |
| Styling.Style.MinusStyle | src/styles.rs:125-135 | `s - t` for `t.level <= s.level`; the left operand's policy and unit are kept |
| Styling.Standard | src/styles.rs:51-57 | `standard(n, l)` has policy `n`, level `l` and unit `INDENT` (four spaces) |
| Styling.Default | src/styles.rs:79-87 | the default style is `{Omit, 0, INDENT}` |
| Styling.Unused | src/styles.rs:59-60 | `unused()` is the default style |
| Styling.DefaultIsStandard | src/styles.rs:79-87 | `default() == standard(Omit, 0)` |
| Styling.PlusStyleIsPlus | src/styles.rs:89-135 | adding or subtracting a style acts only through its level |
| Styling.PlusMinusRoundTrip | src/styles.rs:89-123 | `(s + n) - n == s`, and `(s - n) + n == s` when `s - n` is defined |
| Styling.PlusMinusStyleRoundTrip | src/styles.rs:101-135 | `(s + t) - t == s` |
| Styling.DerivedConstructorsAgree | src/styles.rs:62-99 | `with_indent_level(l + n)` is `+ n`; the `with_*` calls with the current value change nothing; `+` and `with_newline` commute |
| Styling.Styles.Get | src/styles.rs:27-32 | `Ok` exactly when the name is bound, then with the bound style; otherwise `StyleNotFound` carrying that name, never a default |
| Styling.StylesOf | src/styles.rs:7-17 | the table built by `styles!` binds exactly the keys of the pair list |
| Styling.Empty | src/styles.rs:7-17 | in `styles! {}` every lookup fails with `StyleNotFound` naming the role |
| Styling.StylesOfLastWins | src/styles.rs:12-16 | a key is bound exactly when some pair has it, to the value of its last pair (repeated inserts overwrite); an absent key gives `StyleNotFound` |
| Styling.Repeat | src/stringify.rs:64-66 | the unit written `n` times in a row, as the `for` loop over `0 .. indent_level` writes it (also `src/lib.rs:82-84`) |
| Styling.IndentText | src/stringify.rs:61-68 | the text of one indentation step: a line break when the policy is `Add`, then the unit `level` times (also `src/lib.rs:80-85`) |
| Styling.RepeatLength | src/stringify.rs:64-66 | the unit written `n` times has length `n * |unit|` |
| Styling.RepeatBlocks | src/stringify.rs:64-66 | every `|unit|`-sized block of the repetition is the unit |
| Styling.RepeatAdd | src/stringify.rs:64-66 | `a + b` repetitions are `a` repetitions followed by `b` |
| Styling.IndentTextShape | src/stringify.rs:61-68 | the indentation step writes `[Add] + level * |unit|` characters: a line break exactly when the policy is `Add`, then the unit `level` times |
| Styling.IndentTextPlus | src/stringify.rs:61-68 | one level more appends one more unit to the same text |
| Styling.DefaultIndentEmpty | src/styles.rs:79-87 | the default style writes nothing |
| Styling.DefaultIndentPlusOne | src/styles.rs:89-99 | `default + 1` writes one unit and no line break |
| Stringify2.KeyStyles | src/stringify.rs:85-87 | the table a map key is rendered with: only `"key"`, at `standard(Add, start + 1)` |
| Stringify2.ValueStyles | src/stringify.rs:89-91 | the table a map value is rendered with: only `"value"`, at `standard(Add, start + 1)` |
| Stringify2.Render | src/stringify.rs:72-153 | what `stringify` appends and returns: a leaf its text, an empty container its token with no lookup, a non-empty one through `RenderVec` or `RenderMap` |
| Stringify2.RenderVec | src/stringify.rs:142-143 | `"end"` then `"start"` are looked up; a miss ends with nothing written and its error |
| Stringify2.RenderVecWith | src/stringify.rs:143-152 | the opening at `start`, the items, and only if they all pass the closing at `end`; on a failed item the partial text and its error |
| Stringify2.RenderItems | src/stringify.rs:145-149 | the first `n` turns of the item loop, stopping at the first failed item |
| Stringify2.RenderItem | src/stringify.rs:146-148 | one turn: `indent(end + 1)`, the item with the same table, then `","` if it passed |
| Stringify2.RenderMap | src/stringify.rs:81 | `"start"` is looked up first; a miss ends with nothing written |
| Stringify2.RenderMapWith | src/stringify.rs:82-98 | the opening, the entries, then the late `"end"` lookup and the closing at `standard(Add, end + 1)` |
| Stringify2.RenderEntries | src/stringify.rs:84-93 | the first `n` turns of the entry loop, stopping at the first failed entry |
| Stringify2.RenderEntry | src/stringify.rs:85-92 | one turn: the key with `KeyStyles`, `" : "`, the value with `ValueStyles`, `","`, stopping at a failure |
| Stringify2.RenderField | src/stringify.rs:31-44 | `"name"` looked up first; then `indent(name) ++ name ++ "="` and the value with the same table |
| Stringify2.Writer.Indent | src/stringify.rs:61-68 | the loop appends exactly the indentation step to the buffer and leaves the old contents as a prefix |
| Stringify2.Writer.Stringify | src/stringify.rs:72-153 | `stringify` appends `Render(v, styles).text` and returns its outcome; empty containers append their token without any lookup |
| Stringify2.Writer.StringifyVec | src/stringify.rs:138-143 | `"end"` and then `"start"` are looked up before anything is written; a missing one fails with nothing appended |
| Stringify2.Writer.StringifyVecWith | src/stringify.rs:143-152 | appends `indent(start)`, `"Vec ["`, the items, `indent(end)` and `"]"`; an item failure stops there, with the partial text kept |
| Stringify2.Writer.StringifyItems | src/stringify.rs:145-149 | the item loop appends the items in index order and returns at the first failure |
| Stringify2.Writer.StringifyItem | src/stringify.rs:146-148 | appends `indent(end + 1)`, the item rendered with the same table, then `","` if the item succeeded |
| Stringify2.Writer.StringifyMap | src/stringify.rs:81-82 | a non-empty `HashMap` or `BTreeMap` looks up `"start"` first and fails with nothing written when it is absent |
| Stringify2.Writer.StringifyMapWith | src/stringify.rs:82-98 | appends the opening and the entries; only then looks up `"end"`, so a missing `"end"` fails with the opening and every entry left in the buffer; closes with `indent(standard(Add, end + 1))` and `"}"` |
| Stringify2.Writer.StringifyEntries | src/stringify.rs:84-93 | the entry loop appends the entries in iteration order and returns at the first failure |
| Stringify2.Writer.StringifyEntry | src/stringify.rs:85-92 | appends the key (table with only `"key"`), `" : "`, the value (table with only `"value"`), `","`; stops at the first failure |
| Stringify2.Writer.StringifyField | src/stringify.rs:31-44 | `"name"` is looked up first; a miss fails with nothing written; otherwise appends `indent(name) ++ name ++ "="` and the value rendered with the same table |
| Stringify2.Writer.StringifyPrimitive | src/stringify.rs:47-50 | renders with the empty table |
| Stringify2.StringifyNew | src/stringify.rs:24-28 | returns `Ok` exactly when the render passes, with exactly the text appended to a fresh buffer; else the render's error |
| Stringify2.StringifyPrimitiveNew | src/stringify.rs:52-56 | the same for the empty table |
| Stringify2.ItemsFailureSticks | src/stringify.rs:145-149 | once an item fails, later turns of the loop add nothing (the early `?` return) |
| Stringify2.EntriesFailureSticks | src/stringify.rs:84-93 | once an entry fails, later turns add nothing |
| Stringify2Properties.ChildTables | src/stringify.rs:85-91 | a key's table is `styles! { "key" => standard(Add, start + 1) }` and holds only `"key"`; likewise for values |
| Stringify2Properties.WithoutContainerRoles | src/stringify.rs:77-81 | with neither `"start"` nor `"end"`, exactly the flat values render; a non-empty `Vec` fails on `"end"`, a non-empty map on `"start"`, and neither writes anything |
| Stringify2Properties.FlatRendersAnywhere | src/stringify.rs:138-141 | a leaf or an empty container renders the same with every table |
| Stringify2Properties.VecUnfold | src/stringify.rs:142-143 | with both roles present, a non-empty `Vec` renders as the opening, items and closing with the bound styles |
| Stringify2Properties.MapUnfold | src/stringify.rs:81-83 | with `"start"` present, a non-empty map renders with the bound start style |
| Stringify2Properties.Renders | src/stringify.rs:72-153 | reference definition of success: a non-empty container needs `"start"` and `"end"`; `Vec` items see the same table; map keys and values must be flat (a leaf or an empty container) |
| Stringify2Properties.RenderPassIff | src/stringify.rs:72-153 | `stringify` succeeds exactly when the independent predicate `Renders` holds: non-empty containers need `"start"` and `"end"`, `Vec` items see the same table, map keys and values must be flat |
| Stringify2Properties.ItemsPassIff | src/stringify.rs:145-149 | the first `n` items pass exactly when each of them `Renders` |
| Stringify2Properties.EntriesPassIff | src/stringify.rs:84-93 | the first `n` entries pass exactly when their keys and values are flat |
| Stringify2Properties.PrimitivePassIff | src/stringify.rs:47-50 | `stringify_primitive` succeeds exactly on flat values, with their fixed text; a composite fails with `StyleNotFound` |
| Stringify2Properties.FailureNamesContainerRole | src/stringify.rs:72-153 | every failure names `"start"` or `"end"`, however deep, so errors reach the caller unchanged |
| Stringify2Properties.ItemsFailureNames | src/stringify.rs:145-149 | failures inside the item loop name `"start"` or `"end"` |
| Stringify2Properties.EntriesFailureNames | src/stringify.rs:84-93 | failures inside the entry loop name `"start"` or `"end"` |
| Stringify2Properties.FieldFailure | src/stringify.rs:38-42 | without `"name"` the field fails with nothing written; with it, the field succeeds exactly when the value `Renders` |
| Stringify2Properties.VecLookups | src/stringify.rs:142-143 | a missing `"end"` is reported before a missing `"start"`, and nothing is written |
| Stringify2Properties.MapLookups | src/stringify.rs:81 | a non-empty `HashMap` or `BTreeMap` whose table lacks `"start"` fails with `StyleNotFound("start")` and writes nothing, whatever else the table holds |
| Stringify2Properties.FlatEntries | src/stringify.rs:84-93 | flat entries append `key : value,` each, in order, and pass |
| Stringify2Properties.MapOfFlatEntries | src/stringify.rs:81-98 | the exact text of a map of flat entries; without `"end"` the opening and every entry stay in the buffer and the error is `StyleNotFound("end")` |
| Stringify2Properties.FlatItems | src/stringify.rs:145-149 | flat items append `indent(end + 1) ++ text ++ ","` each, in order |
| Stringify2Properties.VecOfFlatItems | src/stringify.rs:142-151 | the exact text of a non-empty `Vec` of flat items |
| Stringify2Properties.JoinRendered | src/stringify.rs:145-149 | reference definition: the items front to back, each as `indent(end + 1)`, its own rendering and `","` |
| Stringify2Properties.JoinRenderedSnoc | src/stringify.rs:145-149 | appending an item appends its piece at the end of the join |
| Stringify2Properties.ItemsInOrder | src/stringify.rs:145-149 | while every item passes, the first `n` turns of the item loop write exactly the front-to-back join of the first `n` items and pass |
| Stringify2Properties.VecInOrder | src/stringify.rs:142-151 | a non-empty `Vec` whose items all satisfy `Renders`, nested containers included, is `indent(start) ++ "Vec ["`, every item in index order, `indent(end) ++ "]"`, and passes |
| Stringify2Properties.TwoPairTable | src/styles.rs:12-16 | `styles! { k1 => s1, k2 => s2 }` is the map `{k1: s1}` updated with `k2: s2` |
| Stringify2Properties.TwoFlatItems | src/stringify.rs:145-149 | the text of two flat items |
| Stringify2Properties.TwoItemVec | src/stringify.rs:142-151 | `vec![a, b]` with start and end `{Omit, 0}` writes `"Vec [    a,    b,]"`: no line breaks |
| Stringify2Properties.TwoItemVecWith | src/stringify.rs:142-151 | the same for any table binding exactly these two roles |
| Stringify2Properties.TwoItemVecText | src/stringify.rs:143-151 | the default style writes nothing and `default + 1` one unit, so the items are separated by units only |
| Stringify2Properties.SingleItemVec | src/stringify.rs:142-151 | the exact text of a one-item `Vec` whose item renders |
| Stringify2Properties.NestedVecSameIndent | src/stringify.rs:145-147 | `vec![vec![x]]` indents the inner items with the same `indent(end + 1)` as the outer item: depth does not add indentation |
| Stringify2Properties.CountField | src/stringify.rs:38-42 | `count` = `5` with `"name"` at `{Add, 1}` gives `"\n    count=5"` |
| Stringify2Properties.EmptyContainers | src/stringify.rs:77-141 | empty `Vec`, `HashMap` and `BTreeMap` give `"Vec []"`, `"HashMap {}"`, `"BTreeMap {}"` even with the empty table |
| Stringify.Text | src/lib.rs:88-291 | what `stringify` with four styles appends, one case per impl |
| Stringify.ItemsText | src/lib.rs:128-138 | the first `n` turns of the item loop |
| Stringify.ItemText | src/lib.rs:129-137 | one turn: `indent(parentRest + 1)`, the item with `(eltInit, eltRest, default, default)`, `","` |
| Stringify.EntriesText | src/lib.rs:103-108 | the first `n` turns of the entry loop |
| Stringify.EntryText | src/lib.rs:104-107 | one turn: the key with `keyStyle` four times, `" : "`, the value with `valueStyle` four times, `","` |
| Stringify.StyleText | src/lib.rs:255-284 | the text of a `Style`: the opening at `parentInit`, its `newline` and `indent_level` fields, the closing at `parentRest` |
| Stringify.FieldText | src/lib.rs:48-59 | `indent(nameStyle) ++ name ++ "="`, then the value with `valueStyle` four times |
| Stringify.BoolToString | src/lib.rs:169-173 | `format!("{}")` of a `bool`: `true` or `false` |
| Stringify.NatToString | src/lib.rs:187-218 | `format!("{}")` of an unsigned integer: its decimal digits |
| Stringify.IntToString | src/lib.rs:220-251 | `format!("{}")` of a signed integer: `-` before the digits of a negative one |
| Stringify.NewlineDebug | src/lib.rs:289 | the `Debug` text of a `Newline`, taken to be its variant name |
| Stringify.StringBuffer.Indent | src/lib.rs:80-85 | the loop appends exactly the indentation step and cannot fail |
| Stringify.StringBuffer.Stringify | src/lib.rs:88-291 | each impl appends exactly `Text(d, parentInit, parentRest, childInit, childRest)`; leaves are single appends |
| Stringify.StringBuffer.StringifyVec | src/lib.rs:116-141 | `indent(parentInit)` comes before the emptiness check; then `"Vec []"`, or the items, `indent(parentRest)` and `"]"` |
| Stringify.StringBuffer.StringifyItems | src/lib.rs:128-138 | the item loop appends the items in index order |
| Stringify.StringBuffer.StringifyItem | src/lib.rs:129-137 | appends `indent(parentRest + 1)`, the item with `(eltInit, eltRest, default, default)`, then `","` |
| Stringify.StringBuffer.StringifyHashMap | src/lib.rs:101-110 | a non-empty map appends `indent(parentInit) ++ "HashMap {"`, the entries and `indent(standard(Add, parentRest + 1)) ++ "}"` |
| Stringify.StringBuffer.StringifyEntries | src/lib.rs:103-108 | the entry loop appends the entries in iteration order |
| Stringify.StringBuffer.StringifyEntry | src/lib.rs:104-107 | appends the key with `keyStyle` in all four positions, `" : "`, the value with `valueStyle` in all four, then `","` |
| Stringify.StringBuffer.StringifyResult | src/lib.rs:147-166 | appends `indent(parentInit)`, `"Ok("` or `"Err("`, the inner value with the same four styles, then `")"` |
| Stringify.StringBuffer.StringifyStyle | src/lib.rs:255-284 | appends `indent(parentInit) ++ "Style {"`, the `newline` and `indent_level` fields through `stringify_field`, then `indent(parentRest) ++ "}"` |
| Stringify.StringBuffer.StringifyField | src/lib.rs:48-59 | appends `indent(nameStyle) ++ name ++ "="`, then the value with `valueStyle` in all four positions |
| Stringify.StringBuffer.StringifyPrimitive | src/lib.rs:61-69 | renders with four default styles |
| Stringify.StringifyNew | src/lib.rs:37-45 | returns exactly what `stringify` appends to a fresh buffer |
| Stringify.StringifyPrimitiveNew | src/lib.rs:71-75 | returns exactly what `stringify_primitive` appends to a fresh buffer |
| StringifyProperties.LeavesIgnoreStyles | src/lib.rs:169-251 | `bool`, strings and integers give the same text under any four styles: strings verbatim, `bool` as `true`/`false`, integers in decimal |
| StringifyProperties.NewlineReadsParentInit | src/lib.rs:286-291 | a `Newline` reads only its first style: `indent(style) ++ "Newline::" ++` its variant name |
| StringifyProperties.NatToStringDecimal | src/lib.rs:187-218 | the text of a natural number is a non-empty string of digits, with no leading zero unless the number is 0; read back as decimal it is the number |
| StringifyProperties.IntToStringRoundTrip | src/lib.rs:220-251 | the text of an integer starts with `-` exactly when it is negative, and reads back as the integer |
| StringifyProperties.IntToStringInjective | src/lib.rs:187-251 | different integers are written differently |
| StringifyProperties.EmptyContainers | src/lib.rs:97-126 | an empty `Vec` writes `indent(parentInit) ++ "Vec []"`; an empty `HashMap` writes only `"HashMap {}"`, under any styles |
| StringifyProperties.EmptyContainersAtLevelOne | src/lib.rs:122-126 | at `{Add, 1}` an empty `Vec` writes `"\n    Vec []"`; an empty `HashMap` still writes `"HashMap {}"` |
| StringifyProperties.JoinItems | src/lib.rs:128-138 | reference definition: the items front to back, each as `indent(parentRest + 1)`, the item with `(eltInit, eltRest, default, default)` and `","` |
| StringifyProperties.ItemsInOrderPrefix | src/lib.rs:128-138 | the first `n` turns of the loop equal the front-to-back reference concatenation of the first `n` items |
| StringifyProperties.VecInOrder | src/lib.rs:122-140 | a non-empty `Vec` is `indent(parentInit) ++ "Vec ["`, every item in index order, `indent(parentRest) ++ "]"` |
| StringifyProperties.JoinEntries | src/lib.rs:103-108 | reference definition: the entries front to back, each as the key with `keyStyle` four times, `" : "`, the value with `valueStyle` four times and `","` |
| StringifyProperties.EntriesInOrderPrefix | src/lib.rs:103-108 | the first `n` turns equal the front-to-back concatenation of the first `n` entries |
| StringifyProperties.HashMapInOrder | src/lib.rs:101-110 | a non-empty `HashMap` is `indent(parentInit) ++ "HashMap {"`, every entry in iteration order, then a line break, `parentRest`'s level plus one default units (`INDENT`, whatever `parentRest`'s unit) and `"}"` |
| StringifyProperties.NestedVecDefaults | src/lib.rs:128-139 | in `vec![vec![x]]` the inner `Vec` opens with `eltInit`, indents its item with `eltRest + 1` and closes with `eltRest`, all taken from the outer call; the item itself receives only default styles |
| StringifyProperties.SingleItemText | src/lib.rs:122-140 | the exact text of a one-item `Vec` |
| StringifyProperties.OpensWithIndentPrefix | src/lib.rs:88-291 | `Vec`, non-empty `HashMap`, `Result`, `Style` and `Newline` texts start with `indent(parentInit)` |
| StringifyProperties.ResultIndentsTwice | src/lib.rs:153-162 | `Ok(x)`/`Err(x)` hand their own styles to `x`, so an `x` that indents itself writes `indent(parentInit)` a second time right after the opening |
| StringifyProperties.FieldNameIndent | src/lib.rs:268 | the field-name style writes one line break |
| StringifyProperties.FieldValueIndent | src/lib.rs:269 | the field-value style writes nothing |
| StringifyProperties.StyleTextShape | src/lib.rs:255-284 | a `Style` writes `"Style {"`, `"\nnewline=Newline::…"`, `"\nindent_level="` and the decimal level, then `indent(parentRest) ++ "}"`; child styles are not read |
| StringifyProperties.StyleUnitNotWritten | src/lib.rs:255-284 | the indentation unit of the rendered style has no effect on its text |
| StringifyProperties.FieldOfLeaf | src/lib.rs:48-59 | a field whose value is a leaf is `indent(nameStyle) ++ name ++ "=" ++` the leaf's own text |
| RenderersAgree.ItemsAgree | src/stringify.rs:145-149 | the item loops of the two renderers write the same text for string items |
| RenderersAgree.VecAgrees | src/stringify.rs:142-151 | a non-empty `Vec` of strings renders identically when `parentInit`/`parentRest` are the table's `"start"`/`"end"` |
| RenderersAgree.EntriesAgree | src/stringify.rs:84-93 | the entry loops write the same text for string pairs |
| RenderersAgree.HashMapAgrees | src/stringify.rs:81-98 | a non-empty `HashMap` of strings, in the same iteration order, renders identically |
| RenderersAgree.EmptyVecDiffers | src/lib.rs:122-126 | on an empty `Vec` the two agree exactly when `indent(parentInit)` is empty; with policy `Add` they never agree |

## Left out

- The output sink is a character buffer whose writes always succeed. `IoError`, `From<io::Error>` (`src/error.rs`) and the generic `W: Write` sink are I/O glue, so the `Outcome` of `Stringify2` carries only `StyleNotFound`.
- The `unsafe { buf.as_mut_vec() }` byte view in `stringify_new` is not modelled: the buffer is a sequence of characters.
- `HashMap` iteration order is hash-seeded, so a map's entries are taken in the order given, and every property holds for any order.
- `BTreeMap` iteration is ascending by key. Keys have a generic `Ord` here, so the entries are taken in the order given, and sorting them is left to the caller of the model.
- Integer widths: `Int` is unbounded and stands for every width. `usize` overflow of `+` (`src/styles.rs:95`, `src/stringify.rs:86`) is not modelled. `Style - n` requires `n <= level`; the wrap-around of a release build is not modelled.
- `src/newline.rs` is not part of this model. `Newline` is assumed to have exactly the variants `Add` and `Omit`. Its `Debug` text, used by `Newline::stringify`, is assumed to be the variant name, as a derived `Debug` would give.
- `format!("{}", …)` for the integer types is modelled as plain decimal with a leading `-`. For `bool` it is `true`/`false`.
- The macro syntax of `styles!` is not modelled, only its effect: a fold of the pairs into an empty map.
- The Rust `Vec<T>` and `HashMap<K, V>` are homogeneous. `Datum` and `Value` allow mixed items, which is a superset.
- In `Stringify2`, leaves stand for every impl that looks up no role and writes a fixed text. The library shows no leaf impls for this renderer.
- The commented-out test module of `src/lib.rs` is not modelled.
- Reading `buf` over the generic `Write` sink and the allocation done by `String::new` are outside the model.
