/** Style values, the role-keyed style table and the text of one indentation
    step, shared by both renderers. */
module Styling {

  /** Whether an indentation step starts with a line break. */
  datatype Newline = Add | Omit

  /** The one domain error: a renderer asked the table for a role it lacks. */
  datatype Error = StyleNotFound(name: string)

  datatype Result<T> = Ok(value: T) | Err(error: Error)

  /** The default indentation unit: four spaces. */
  const INDENT: string := "    "

  /** An immutable layout directive. `indentLevel` is a `usize` in the
      source; overflow on addition is not modelled. */
  datatype Style = Style(newline: Newline, indentLevel: nat, indent: string)
  {
    /** A copy with another newline policy. */
    function WithNewline(n: Newline): (r: Style)
      ensures r.newline == n
      ensures r.indentLevel == indentLevel && r.indent == indent
    {
      Style(n, indentLevel, indent)
    }

    /** A copy with another indentation level. */
    function WithIndentLevel(level: nat): (r: Style)
      ensures r.indentLevel == level
      ensures r.newline == newline && r.indent == indent
    {
      Style(newline, level, indent)
    }

    /** `self + n`: the level shifted up by `n`. */
    function Plus(n: nat): (r: Style)
      ensures r.indentLevel == indentLevel + n
      ensures r.newline == newline && r.indent == indent
    {
      Style(newline, indentLevel + n, indent)
    }

    /** `self + rhs`: the levels added; policy and unit come from `self`. */
    function PlusStyle(rhs: Style): (r: Style)
      ensures r.indentLevel == indentLevel + rhs.indentLevel
      ensures r.newline == newline && r.indent == indent
    {
      Style(newline, indentLevel + rhs.indentLevel, indent)
    }

    /** `self - n`: unsigned subtraction, defined only without underflow. */
    function Minus(n: nat): (r: Style)
      requires n <= indentLevel
      ensures r.indentLevel + n == indentLevel
      ensures r.newline == newline && r.indent == indent
    {
      Style(newline, indentLevel - n, indent)
    }

    /** `self - rhs`: the levels subtracted; policy and unit come from `self`. */
    function MinusStyle(rhs: Style): (r: Style)
      requires rhs.indentLevel <= indentLevel
      ensures r.indentLevel + rhs.indentLevel == indentLevel
      ensures r.newline == newline && r.indent == indent
    {
      Style(newline, indentLevel - rhs.indentLevel, indent)
    }
  }

  /** `Style::standard`: the given policy and level with the default unit. */
  function Standard(newline: Newline, level: nat): (s: Style)
    ensures s.newline == newline && s.indentLevel == level && s.indent == INDENT
  {
    Style(newline, level, INDENT)
  }

  /** `Style::default`: no newline, level zero, the default unit. */
  function Default(): (s: Style)
    ensures s.newline == Omit && s.indentLevel == 0 && s.indent == INDENT
  {
    Style(Omit, 0, INDENT)
  }

  /** `Style::unused`: a placeholder for a style a renderer ignores. */
  function Unused(): (s: Style)
    ensures s == Default()
  {
    Default()
  }

  lemma DefaultIsStandard()
    ensures Default() == Standard(Omit, 0)
  {
  }

  /** Adding a style adds its level and nothing else. */
  lemma PlusStyleIsPlus(s: Style, t: Style)
    ensures s.PlusStyle(t) == s.Plus(t.indentLevel)
    ensures t.indentLevel <= s.indentLevel ==> s.MinusStyle(t) == s.Minus(t.indentLevel)
  {
  }

  /** `(s + n) - n == s`, and `(s - n) + n == s` when `s - n` is defined. */
  lemma PlusMinusRoundTrip(s: Style, n: nat)
    ensures s.Plus(n).Minus(n) == s
    ensures n <= s.indentLevel ==> s.Minus(n).Plus(n) == s
  {
  }

  /** `(s + t) - t == s` for styles. */
  lemma PlusMinusStyleRoundTrip(s: Style, t: Style)
    ensures s.PlusStyle(t).MinusStyle(t) == s
  {
  }

  /** The two derived constructors and addition describe the same records. */
  lemma DerivedConstructorsAgree(s: Style, n: nat)
    ensures s.WithIndentLevel(s.indentLevel + n) == s.Plus(n)
    ensures s.WithNewline(s.newline) == s && s.WithIndentLevel(s.indentLevel) == s
    ensures s.Plus(n).WithNewline(Add) == s.WithNewline(Add).Plus(n)
  {
  }

  // ---------------------------------------------------------------------
  // The role table

  /** `Styles`: role name to style. */
  datatype Styles = Styles(table: map<string, Style>)
  {
    /** `Styles::get`: the bound style, or `StyleNotFound` naming the role. */
    function Get(name: string): (r: Result<Style>)
      ensures r.Ok? <==> name in table
      ensures r.Ok? ==> r.value == table[name]
      ensures r.Err? ==> r.error == StyleNotFound(name)
    {
      if name in table then Ok(table[name]) else Err(StyleNotFound(name))
    }
  }

  /** The effect of `styles! { k1 => v1, ..., kn => vn }`: the pairs are
      inserted into an empty map in order, a later insert overwriting an
      earlier one. */
  function StylesOf(pairs: seq<(string, Style)>): (s: Styles)
    ensures s.table.Keys == set i | 0 <= i < |pairs| :: pairs[i].0
  {
    if |pairs| == 0 then Styles(map[])
    else
      var last := pairs[|pairs| - 1];
      var before := StylesOf(pairs[..|pairs| - 1]);
      assert forall i | 0 <= i < |pairs| - 1 :: pairs[..|pairs| - 1][i] == pairs[i];
      Styles(before.table[last.0 := last.1])
  }

  /** `styles! {}`. */
  function Empty(): (s: Styles)
    ensures forall name :: s.Get(name) == Err(StyleNotFound(name))
  {
    StylesOf([])
  }

  /** The last pair with key `k` decides what `k` is bound to; a key with no
      pair is not found. */
  lemma {:induction false} StylesOfLastWins(pairs: seq<(string, Style)>, k: string)
    ensures (exists i :: 0 <= i < |pairs| && pairs[i].0 == k) <==> StylesOf(pairs).Get(k).Ok?
    ensures forall i :: 0 <= i < |pairs| && pairs[i].0 == k
                   && (forall j :: i < j < |pairs| ==> pairs[j].0 != k)
                   ==> StylesOf(pairs).Get(k) == Ok(pairs[i].1)
    ensures (forall i :: 0 <= i < |pairs| ==> pairs[i].0 != k)
            ==> StylesOf(pairs).Get(k) == Err(StyleNotFound(k))
  {
    if |pairs| > 0 {
      var init := pairs[..|pairs| - 1];
      StylesOfLastWins(init, k);
      forall i | 0 <= i < |pairs| - 1 ensures init[i] == pairs[i] { }
      var n := |pairs| - 1;
      if pairs[n].0 == k {
        assert StylesOf(pairs).table[k] == pairs[n].1;
      } else {
        assert StylesOf(pairs).table == StylesOf(init).table[pairs[n].0 := pairs[n].1];
        assert StylesOf(pairs).Get(k) == StylesOf(init).Get(k);
      }
    }
  }

  // ---------------------------------------------------------------------
  // The indentation primitive, as text

  /** `unit` written `n` times in a row. */
  function Repeat(unit: string, n: nat): (r: string)
  {
    if n == 0 then "" else Repeat(unit, n - 1) + unit
  }

  /** What one indentation step with `style` writes: a line break when the
      policy is `Add`, then the unit `indentLevel` times. */
  function IndentText(style: Style): (r: string)
  {
    (if style.newline == Add then "\n" else "") + Repeat(style.indent, style.indentLevel)
  }

  lemma {:induction false} RepeatLength(unit: string, n: nat)
    ensures |Repeat(unit, n)| == n * |unit|
  {
    if n > 0 {
      RepeatLength(unit, n - 1);
      assert |Repeat(unit, n)| == (n - 1) * |unit| + |unit|;
    }
  }

  /** Every block of `|unit|` characters of `Repeat(unit, n)` is `unit`. */
  lemma {:induction false} RepeatBlocks(unit: string, n: nat, k: nat)
    requires k < n
    ensures |Repeat(unit, n)| == n * |unit|
    ensures Repeat(unit, n)[k * |unit| .. (k + 1) * |unit|] == unit
  {
    RepeatLength(unit, n);
    RepeatLength(unit, n - 1);
    if k < n - 1 {
      RepeatBlocks(unit, n - 1, k);
      assert (k + 1) * |unit| <= (n - 1) * |unit|;
      assert Repeat(unit, n)[k * |unit| .. (k + 1) * |unit|]
          == Repeat(unit, n - 1)[k * |unit| .. (k + 1) * |unit|];
    } else {
      assert k * |unit| == |Repeat(unit, n - 1)|;
      assert (k + 1) * |unit| == k * |unit| + |unit|;
    }
  }

  lemma {:induction false} RepeatAdd(unit: string, a: nat, b: nat)
    ensures Repeat(unit, a + b) == Repeat(unit, a) + Repeat(unit, b)
  {
    if b > 0 {
      RepeatAdd(unit, a, b - 1);
      assert Repeat(unit, a + b) == Repeat(unit, a + (b - 1)) + unit;
    }
  }

  /** The indentation text has length `[Add] + level * |unit|`; it starts with
      the line break exactly when the policy is `Add`, and what follows is the
      unit repeated `level` times. */
  lemma IndentTextShape(style: Style)
    ensures |IndentText(style)| == (if style.newline == Add then 1 else 0) + style.indentLevel * |style.indent|
    ensures style.newline == Add ==> IndentText(style) == "\n" + Repeat(style.indent, style.indentLevel)
    ensures style.newline == Omit ==> IndentText(style) == Repeat(style.indent, style.indentLevel)
  {
    RepeatLength(style.indent, style.indentLevel);
  }

  /** One more level writes one more unit at the end. */
  lemma IndentTextPlus(style: Style, n: nat)
    ensures IndentText(style.Plus(n)) == IndentText(style) + Repeat(style.indent, n)
  {
    RepeatAdd(style.indent, style.indentLevel, n);
    AppendAssoc(if style.newline == Add then "\n" else "", Repeat(style.indent, style.indentLevel), Repeat(style.indent, n));
  }

  /** The default style writes nothing. */
  lemma DefaultIndentEmpty()
    ensures IndentText(Default()) == ""
  {
  }

  /** One level above the default writes one unit and no line break. */
  lemma DefaultIndentPlusOne()
    ensures IndentText(Default().Plus(1)) == INDENT
  {
    assert Repeat(INDENT, 1) == Repeat(INDENT, 0) + INDENT;
  }

  // ---------------------------------------------------------------------
  // Proof helpers: regrouping the appends of a buffer

  lemma AppendAssoc(a: string, b: string, c: string)
    ensures (a + b) + c == a + (b + c)
  {
  }

  lemma AppendAssoc3(a: string, b: string, c: string, d: string)
    ensures ((a + b) + c) + d == a + ((b + c) + d)
  {
  }

}

