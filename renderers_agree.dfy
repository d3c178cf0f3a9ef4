/** Where the two renderers agree and where they differ. Given a table whose
    `"start"` and `"end"` are the four-style renderer's `parentInit` and
    `parentRest`, a non-empty `Vec` or `HashMap` of strings comes out the same
    from both; an empty `Vec` differs whenever `indent(parentInit)` writes
    something, because only the four-style renderer indents it. */
module RenderersAgree {
  import opened Styling
  import S1 = Stringify
  import S2 = Stringify2
  import P2 = Stringify2Properties

  /** The same strings as items of each renderer. */
  function Leaves(ts: seq<string>): seq<S2.Value>
  {
    seq(|ts|, i requires 0 <= i < |ts| => S2.Leaf(ts[i]))
  }

  function Strs(ts: seq<string>): seq<S1.Datum>
  {
    seq(|ts|, i requires 0 <= i < |ts| => S1.Str(ts[i]))
  }

  /** The same string pairs as entries of each renderer. */
  function LeafEntries(kvs: seq<(string, string)>): seq<S2.Entry>
  {
    seq(|kvs|, i requires 0 <= i < |kvs| => S2.Entry(S2.Leaf(kvs[i].0), S2.Leaf(kvs[i].1)))
  }

  function StrPairs(kvs: seq<(string, string)>): seq<S1.Pair>
  {
    seq(|kvs|, i requires 0 <= i < |kvs| => S1.Pair(S1.Str(kvs[i].0), S1.Str(kvs[i].1)))
  }

  lemma {:induction false} ItemsAgree(ts: seq<string>, end: Style, ci: Style, cr: Style, n: nat)
    requires n <= |ts|
    requires forall i :: 0 <= i < |Leaves(ts)| ==> P2.Flat(Leaves(ts)[i])
    ensures P2.FlatItemsText(Leaves(ts)[..n], end) == S1.ItemsText(S1.Vec(Strs(ts)), end, ci, cr, n)
    decreases n
  {
    if n > 0 {
      ItemsAgree(ts, end, ci, cr, n - 1);
      var items := Leaves(ts)[..n];
      assert items[..n - 1] == Leaves(ts)[..n - 1];
      var prev := P2.FlatItemsText(items[..n - 1], end);
      var unit := IndentText(end.Plus(1));
      assert items[n - 1] == S2.Leaf(ts[n - 1]);
      assert P2.FlatItemsText(items, end) == prev + unit + ts[n - 1] + S2.COMMA;
      var d := S1.Vec(Strs(ts));
      assert d.items[n - 1] == S1.Str(ts[n - 1]);
      assert S1.ItemText(d.items[n - 1], end, ci, cr) == unit + ts[n - 1] + S1.COMMA;
      AppendAssoc3(prev, unit, ts[n - 1], S1.COMMA);
    }
  }

  /** A non-empty `Vec` of strings: `stringify` with `"start"` and `"end"`
      succeeds with exactly the text of the four-style `stringify` given
      `"start"` and `"end"` as `parentInit` and `parentRest`, whatever the
      child styles. */
  lemma VecAgrees(ts: seq<string>, styles: Styles, ci: Style, cr: Style)
    requires |ts| > 0 && "start" in styles.table && "end" in styles.table
    ensures S2.Render(S2.Vec(Leaves(ts)), styles)
            == S2.Written(S1.Text(S1.Vec(Strs(ts)), styles.table["start"], styles.table["end"], ci, cr), S2.Pass)
  {
    var end := styles.table["end"];
    P2.VecOfFlatItems(Leaves(ts), styles);
    ItemsAgree(ts, end, ci, cr, |ts|);
    assert Leaves(ts)[..|ts|] == Leaves(ts);
  }

  lemma {:induction false} EntriesAgree(kvs: seq<(string, string)>, ks: Style, vs: Style, n: nat)
    requires n <= |kvs|
    requires forall i :: 0 <= i < |LeafEntries(kvs)| ==>
               P2.Flat(LeafEntries(kvs)[i].key) && P2.Flat(LeafEntries(kvs)[i].value)
    ensures P2.FlatEntriesText(LeafEntries(kvs)[..n]) == S1.EntriesText(S1.HashMap(StrPairs(kvs)), ks, vs, n)
    decreases n
  {
    if n > 0 {
      EntriesAgree(kvs, ks, vs, n - 1);
      var entries := LeafEntries(kvs)[..n];
      assert entries[..n - 1] == LeafEntries(kvs)[..n - 1];
      var prev := P2.FlatEntriesText(entries[..n - 1]);
      var k, v := kvs[n - 1].0, kvs[n - 1].1;
      assert entries[n - 1] == S2.Entry(S2.Leaf(k), S2.Leaf(v));
      assert P2.FlatEntriesText(entries) == prev + k + S2.SEPARATOR + v + S2.COMMA;
      var d := S1.HashMap(StrPairs(kvs));
      assert d.entries[n - 1] == S1.Pair(S1.Str(k), S1.Str(v));
      assert S1.EntryText(d.entries[n - 1], ks, vs) == k + S1.SEPARATOR + v + S1.COMMA;
      AppendAssoc3(prev, k, S1.SEPARATOR, v);
      AppendAssoc(prev, k + S1.SEPARATOR + v, S1.COMMA);
    }
  }

  /** A non-empty `HashMap` of strings, in the same iteration order, comes
      out the same from both renderers, whatever the key and value styles. */
  lemma HashMapAgrees(kvs: seq<(string, string)>, styles: Styles, ks: Style, vs: Style)
    requires |kvs| > 0 && "start" in styles.table && "end" in styles.table
    ensures S2.Render(S2.HashMap(LeafEntries(kvs)), styles)
            == S2.Written(S1.Text(S1.HashMap(StrPairs(kvs)), styles.table["start"], styles.table["end"], ks, vs), S2.Pass)
  {
    var start := styles.table["start"];
    P2.MapOfFlatEntries(S2.HashMap(LeafEntries(kvs)), styles);
    EntriesAgree(kvs, ks, vs, |kvs|);
    assert LeafEntries(kvs)[..|kvs|] == LeafEntries(kvs);
    AppendAssoc(IndentText(start), S2.HASH_LABEL, S2.MAP_OPEN);
    assert S2.HASH_LABEL + S2.MAP_OPEN == S1.HASH_OPEN;
  }

  /** The two renderers differ on an empty `Vec` exactly when `parentInit`
      writes something, for instance when its policy is `Add`. */
  lemma EmptyVecDiffers(styles: Styles, pi: Style, pr: Style, ci: Style, cr: Style)
    ensures S2.Render(S2.Vec([]), styles).text == S1.Text(S1.Vec([]), pi, pr, ci, cr) <==> IndentText(pi) == ""
    ensures pi.newline == Add ==> S2.Render(S2.Vec([]), styles).text != S1.Text(S1.Vec([]), pi, pr, ci, cr)
  {
    var t := S1.Text(S1.Vec([]), pi, pr, ci, cr);
    assert t == IndentText(pi) + S1.VEC_EMPTY;
    assert |t| == |IndentText(pi)| + |S2.VEC_EMPTY|;
    if pi.newline == Add {
      IndentTextShape(pi);
    }
  }
}
