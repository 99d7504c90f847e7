/** The class tables of `src/theme/utils/createThemeClasses.ts`: the
    colour classes of a theme, the margin and padding classes of its
    spacing scale, the typography classes, and the border-radius, shadow
    and layout utility classes.

    An object built by assignments or by `Object.fromEntries` is a list
    of (key, value) entries read into a map in order, so that a later
    entry with the same key replaces an earlier one. A theme's token
    tables (`Object.entries(spacing)` and the like) are entry lists whose
    keys are distinct, as the keys of an object are. */
module ThemeClasses {

  import opened ColorRules

  datatype StyleValue = Num(n: real) | Str(s: string)

  /** A style object: one property, or a shadow style passed on whole. */
  datatype Style = Single(prop: string, value: StyleValue) | ShadowStyle(fields: map<string, StyleValue>)

  predicate DistinctKeys<V>(entries: seq<(string, V)>) {
    forall i, j | 0 <= i < j < |entries| :: entries[i].0 != entries[j].0
  }

  /** Entry `i` is the last one with its key. */
  predicate LastWithKey<V>(entries: seq<(string, V)>, i: int)
    requires 0 <= i < |entries|
  {
    forall j | i < j < |entries| :: entries[j].0 != entries[i].0
  }

  /** The entries read into a map in order: the keys are exactly the
      entries' keys, and each key holds the value of its last entry. */
  function FromEntries<V>(entries: seq<(string, V)>): (r: map<string, V>)
    ensures forall k :: k in r <==> exists i | 0 <= i < |entries| :: entries[i].0 == k
    ensures forall i | 0 <= i < |entries| && LastWithKey(entries, i) :: r[entries[i].0] == entries[i].1
    decreases |entries|
  {
    if entries == [] then map[]
    else
      var n := |entries| - 1;
      var prev := FromEntries(entries[..n]);
      FromEntriesLast(entries, entries[..n], prev);
      prev[entries[n].0 := entries[n].1]
  }

  /** The step of `FromEntries`: what the map read from all entries but
      the last states, extended by the last assignment. */
  lemma FromEntriesLast<V>(entries: seq<(string, V)>, front: seq<(string, V)>, prev: map<string, V>)
    requires |entries| > 0 && front == entries[..|entries| - 1]
    requires forall k :: k in prev <==> exists i | 0 <= i < |front| :: front[i].0 == k
    requires forall i | 0 <= i < |front| && LastWithKey(front, i) :: prev[front[i].0] == front[i].1
    ensures var r := prev[entries[|entries| - 1].0 := entries[|entries| - 1].1];
      && (forall k :: k in r <==> exists i | 0 <= i < |entries| :: entries[i].0 == k)
      && (forall i | 0 <= i < |entries| && LastWithKey(entries, i) :: r[entries[i].0] == entries[i].1)
  {
    var n := |entries| - 1;
    var r := prev[entries[n].0 := entries[n].1];
    forall k
      ensures k in r <==> exists i | 0 <= i < |entries| :: entries[i].0 == k
    {
      if k in prev && k != entries[n].0 {
        var i :| 0 <= i < n && front[i].0 == k;
        assert entries[i].0 == k;
      }
      if exists i | 0 <= i < |entries| :: entries[i].0 == k {
        var i :| 0 <= i < |entries| && entries[i].0 == k;
        if i < n {
          assert front[i].0 == k;
        }
      }
    }
    forall i | 0 <= i < |entries| && LastWithKey(entries, i)
      ensures r[entries[i].0] == entries[i].1
    {
      if i < n {
        assert entries[n].0 != entries[i].0;
        assert front[i] == entries[i];
        assert LastWithKey(front, i);
      }
    }
  }

  /** Reading one more entry is one more assignment. */
  lemma FromEntriesSnoc<V>(entries: seq<(string, V)>, key: string, value: V)
    ensures FromEntries(entries + [(key, value)]) == FromEntries(entries)[key := value]
  {
    assert (entries + [(key, value)])[..|entries|] == entries;
  }

  // ---------------------------------------------------------------- colours

  /** A colour scheme: the colour of a field of a group. */
  type Palette = (ColorGroup, string) -> string

  function ColorEntry(colors: Palette, rule: ColorRule): (string, Style) {
    (rule.name, Single(rule.prop, Str(colors(rule.group, rule.field))))
  }

  function ColorEntries(colors: Palette): (e: seq<(string, Style)>)
    ensures |e| == |COLOR_RULES|
    ensures forall i | 0 <= i < |e| :: e[i] == ColorEntry(colors, COLOR_RULES[i])
  {
    seq(|COLOR_RULES|, i requires 0 <= i < |COLOR_RULES| => ColorEntry(colors, COLOR_RULES[i]))
  }

  /** `createColorClasses(theme)`: one class per rule, holding the colour
      of the one scheme field the rule names under the rule's property,
      and no other class. */
  function ColorClasses(colors: Palette): (r: map<string, Style>)
    ensures forall k :: k in r <==> exists i | 0 <= i < |COLOR_RULES| :: COLOR_RULES[i].name == k
  {
    FromEntries(ColorEntries(colors))
  }

  /** The class names are distinct, so no rule is shadowed by another. */
  lemma ColorClassLookup(colors: Palette, i: int)
    requires 0 <= i < |COLOR_RULES|
    ensures COLOR_RULES[i].name in ColorClasses(colors)
    ensures ColorClasses(colors)[COLOR_RULES[i].name]
            == Single(COLOR_RULES[i].prop, Str(colors(COLOR_RULES[i].group, COLOR_RULES[i].field)))
  {
    ColorNamesDistinct();
    var e := ColorEntries(colors);
    assert e[i].0 == COLOR_RULES[i].name;
    assert LastWithKey(e, i);
  }

  /** Two schemes that agree on the fields the rules read give the same
      classes: nothing else of the theme is used. */
  lemma ColorClassesReadOnlyRuleFields(a: Palette, b: Palette)
    requires forall i | 0 <= i < |COLOR_RULES| :: a(COLOR_RULES[i].group, COLOR_RULES[i].field) == b(COLOR_RULES[i].group, COLOR_RULES[i].field)
    ensures ColorClasses(a) == ColorClasses(b)
  {
    assert ColorEntries(a) == ColorEntries(b);
  }

  // ---------------------------------------------------------------- spacing

  /** The margin and padding prefixes with the property each sets. */
  const SPACING_RULES: seq<(string, string)> := [
    ("m-", "margin"), ("mt-", "marginTop"), ("mr-", "marginRight"), ("mb-", "marginBottom"),
    ("ml-", "marginLeft"), ("mx-", "marginHorizontal"), ("my-", "marginVertical"),
    ("p-", "padding"), ("pt-", "paddingTop"), ("pr-", "paddingRight"), ("pb-", "paddingBottom"),
    ("pl-", "paddingLeft"), ("px-", "paddingHorizontal"), ("py-", "paddingVertical")
  ]

  /** A prefix whose only "-" is its last character. */
  predicate DashOnlyAtEnd(p: string) {
    |p| >= 1 && p[|p| - 1] == '-' && forall i | 0 <= i < |p| - 1 :: p[i] != '-'
  }

  /** Two such prefixes followed by keys spell the same name only for the
      same prefix and the same key. */
  lemma PrefixedInjective(p1: string, k1: string, p2: string, k2: string)
    requires DashOnlyAtEnd(p1) && DashOnlyAtEnd(p2)
    ensures p1 + k1 == p2 + k2 ==> p1 == p2 && k1 == k2
  {
    var s1, s2 := p1 + k1, p2 + k2;
    assert forall i | 0 <= i < |p1| - 1 :: s1[i] == p1[i];
    assert s1[|p1| - 1] == '-';
    assert forall i | 0 <= i < |p2| - 1 :: s2[i] == p2[i];
    assert s2[|p2| - 1] == '-';
    if s1 == s2 {
      assert |p1| == |p2|;
      assert p1 == s1[..|p1|] && p2 == s2[..|p2|];
      assert k1 == s1[|p1|..] && k2 == s2[|p2|..];
    }
  }

  /** Names whose first two characters differ are different names. */
  lemma PrefixesClash(p: string, q: string, x: string, y: string)
    requires |p| >= 2 && |q| >= 2 && (p[0] != q[0] || p[1] != q[1])
    ensures p + x != q + y
  {
    assert (p + x)[0] == p[0] && (p + x)[1] == p[1];
    assert (q + y)[0] == q[0] && (q + y)[1] == q[1];
  }

  /** The same prefix followed by different keys spells different names. */
  lemma SamePrefixDiffers(p: string, x: string, y: string)
    ensures x != y ==> p + x != p + y
  {
    assert (p + x)[|p|..] == x && (p + y)[|p|..] == y;
  }

  lemma SpacingRulesWellFormed()
    ensures forall j | 0 <= j < |SPACING_RULES| :: DashOnlyAtEnd(SPACING_RULES[j].0)
    ensures forall j, j' | 0 <= j < j' < |SPACING_RULES| :: SPACING_RULES[j].0 != SPACING_RULES[j'].0
  {
  }

  function SpacingEntry(entry: (string, real), j: int): (string, Style)
    requires 0 <= j < |SPACING_RULES|
  {
    (SPACING_RULES[j].0 + entry.0, Single(SPACING_RULES[j].1, Num(entry.1)))
  }

  /** The assignments of the spacing loop, in the order it makes them. */
  function SpacingEntries(spacing: seq<(string, real)>): (e: seq<(string, Style)>)
    ensures |e| == 14 * |spacing|
    ensures forall n | 0 <= n < |e| :: e[n] == SpacingEntry(spacing[n / 14], n % 14)
  {
    seq(14 * |spacing|, n requires 0 <= n < 14 * |spacing| => SpacingEntry(spacing[n / 14], n % 14))
  }

  lemma DivMod14(i: int, j: int)
    requires 0 <= i && 0 <= j < 14
    ensures (14 * i + j) / 14 == i && (14 * i + j) % 14 == j
  {
  }

  /** The spacing classes as the loop leaves them. */
  function SpacingClasses(spacing: seq<(string, real)>): map<string, Style> {
    FromEntries(SpacingEntries(spacing))
  }

  /** `createSpacingClasses(theme)`: one loop over the spacing scale,
      assigning the fourteen margin and padding classes of each step. */
  method CreateSpacingClasses(spacing: seq<(string, real)>) returns (classes: map<string, Style>)
    ensures classes == SpacingClasses(spacing)
  {
    ghost var e := SpacingEntries(spacing);
    classes := map[];
    var i := 0;
    while i < |spacing|
      invariant 0 <= i <= |spacing|
      invariant classes == FromEntries(e[..14 * i])
    {
      var key := spacing[i].0;
      var value := spacing[i].1;
      var j := 0;
      while j < 14
        invariant 0 <= j <= 14
        invariant classes == FromEntries(e[..14 * i + j])
      {
        SpacingStep(spacing, i, j);
        classes := classes[SPACING_RULES[j].0 + key := Single(SPACING_RULES[j].1, Num(value))];
        j := j + 1;
      }
      assert 14 * i + j == 14 * (i + 1);
      i := i + 1;
    }
    assert |e| == 14 * i && e[..14 * i] == e;
  }

  /** One assignment of the spacing loop is one more entry read. */
  lemma SpacingStep(spacing: seq<(string, real)>, i: int, j: int)
    requires 0 <= i < |spacing| && 0 <= j < 14
    ensures FromEntries(SpacingEntries(spacing)[..14 * i + j + 1])
            == FromEntries(SpacingEntries(spacing)[..14 * i + j])[SPACING_RULES[j].0 + spacing[i].0 := Single(SPACING_RULES[j].1, Num(spacing[i].1))]
  {
    var e := SpacingEntries(spacing);
    DivMod14(i, j);
    assert e[14 * i + j] == SpacingEntry(spacing[i], j);
    AddGroupStep(e, 14 * i + j, SPACING_RULES[j].0 + spacing[i].0, Single(SPACING_RULES[j].1, Num(spacing[i].1)));
  }

  /** Different (step, prefix) pairs give different class names. */
  lemma SpacingNamesDiffer(spacing: seq<(string, real)>, i: int, j: int, i': int, j': int)
    requires DistinctKeys(spacing)
    requires 0 <= i < |spacing| && 0 <= j < |SPACING_RULES|
    requires 0 <= i' < |spacing| && 0 <= j' < |SPACING_RULES|
    requires i != i' || j != j'
    ensures SPACING_RULES[j].0 + spacing[i].0 != SPACING_RULES[j'].0 + spacing[i'].0
  {
    SpacingRulesWellFormed();
    PrefixedInjective(SPACING_RULES[j].0, spacing[i].0, SPACING_RULES[j'].0, spacing[i'].0);
  }

  /** Every margin and padding class of every step holds that step's
      value under its own property. */
  lemma SpacingClassLookup(spacing: seq<(string, real)>, i: int, j: int)
    requires DistinctKeys(spacing)
    requires 0 <= i < |spacing| && 0 <= j < |SPACING_RULES|
    ensures SPACING_RULES[j].0 + spacing[i].0 in SpacingClasses(spacing)
    ensures SpacingClasses(spacing)[SPACING_RULES[j].0 + spacing[i].0] == Single(SPACING_RULES[j].1, Num(spacing[i].1))
  {
    var e := SpacingEntries(spacing);
    var n := 14 * i + j;
    DivMod14(i, j);
    assert e[n] == SpacingEntry(spacing[i], j);
    forall m | n < m < |e|
      ensures e[m].0 != e[n].0
    {
      var i', j' := m / 14, m % 14;
      assert m == 14 * i' + j';
      assert e[m] == SpacingEntry(spacing[i'], j');
      SpacingNamesDiffer(spacing, i', j', i, j);
    }
    assert LastWithKey(e, n);
  }

  // ------------------------------------------------------------- typography

  /** The typography tables of a theme. */
  datatype Typography = Typography(
    fontSize: seq<(string, StyleValue)>,
    fontWeight: seq<(string, StyleValue)>,
    lineHeight: seq<(string, StyleValue)>,
    letterSpacing: seq<(string, StyleValue)>,
    fontFamily: seq<(string, StyleValue)>)

  /** The assignments of one typography loop. */
  function GroupEntries(prefix: string, prop: string, table: seq<(string, StyleValue)>): (e: seq<(string, Style)>)
    ensures |e| == |table|
    ensures forall i | 0 <= i < |e| :: e[i] == (prefix + table[i].0, Single(prop, table[i].1))
  {
    seq(|table|, i requires 0 <= i < |table| => (prefix + table[i].0, Single(prop, table[i].1)))
  }

  /** The five loops' assignments, in order. */
  function TypographyEntries(t: Typography): seq<(string, Style)> {
    GroupEntries("text-", "fontSize", t.fontSize)
    + GroupEntries("font-", "fontWeight", t.fontWeight)
    + GroupEntries("leading-", "lineHeight", t.lineHeight)
    + GroupEntries("tracking-", "letterSpacing", t.letterSpacing)
    + GroupEntries("font-family-", "fontFamily", t.fontFamily)
  }

  function TypographyClasses(t: Typography): map<string, Style> {
    FromEntries(TypographyEntries(t))
  }

  /** One typography loop, continuing the assignments made so far. */
  method AddGroup(classes: map<string, Style>, ghost before: seq<(string, Style)>,
                  prefix: string, prop: string, table: seq<(string, StyleValue)>)
    returns (r: map<string, Style>)
    requires classes == FromEntries(before)
    ensures r == FromEntries(before + GroupEntries(prefix, prop, table))
  {
    ghost var group := GroupEntries(prefix, prop, table);
    assert before + group[..0] == before;
    r := classes;
    var i := 0;
    while i < |table|
      invariant 0 <= i <= |table|
      invariant r == FromEntries(before + group[..i])
    {
      AppendGroupStep(before, group, i);
      r := r[prefix + table[i].0 := Single(prop, table[i].1)];
      i := i + 1;
    }
    assert group[..i] == group;
  }

  lemma AddGroupStep(all: seq<(string, Style)>, n: int, key: string, value: Style)
    requires 0 <= n < |all| && all[n] == (key, value)
    ensures FromEntries(all[..n + 1]) == FromEntries(all[..n])[key := value]
  {
    assert all[..n + 1] == all[..n] + [(key, value)];
    FromEntriesSnoc(all[..n], key, value);
  }

  /** One more entry of a typography loop after the earlier assignments. */
  lemma AppendGroupStep(before: seq<(string, Style)>, group: seq<(string, Style)>, i: int)
    requires 0 <= i < |group|
    ensures FromEntries(before + group[..i + 1]) == FromEntries(before + group[..i])[group[i].0 := group[i].1]
  {
    assert before + group[..i + 1] == (before + group[..i]) + [group[i]];
    FromEntriesSnoc(before + group[..i], group[i].0, group[i].1);
  }

  /** `createTypographyClasses(theme)`: the five loops in order. */
  method CreateTypographyClasses(t: Typography) returns (classes: map<string, Style>)
    ensures classes == TypographyClasses(t)
  {
    ghost var g1 := GroupEntries("text-", "fontSize", t.fontSize);
    ghost var g2 := GroupEntries("font-", "fontWeight", t.fontWeight);
    ghost var g3 := GroupEntries("leading-", "lineHeight", t.lineHeight);
    ghost var g4 := GroupEntries("tracking-", "letterSpacing", t.letterSpacing);
    assert [] + g1 == g1;
    classes := AddGroup(map[], [], "text-", "fontSize", t.fontSize);
    classes := AddGroup(classes, g1, "font-", "fontWeight", t.fontWeight);
    classes := AddGroup(classes, g1 + g2, "leading-", "lineHeight", t.lineHeight);
    classes := AddGroup(classes, g1 + g2 + g3, "tracking-", "letterSpacing", t.letterSpacing);
    classes := AddGroup(classes, g1 + g2 + g3 + g4, "font-family-", "fontFamily", t.fontFamily);
  }

  /** The font families are assigned last, so every "font-family-k" class
      holds family k, even when a font weight is named "family-k". */
  lemma FontFamilyWins(t: Typography, i: int)
    requires DistinctKeys(t.fontFamily) && 0 <= i < |t.fontFamily|
    ensures "font-family-" + t.fontFamily[i].0 in TypographyClasses(t)
    ensures TypographyClasses(t)["font-family-" + t.fontFamily[i].0] == Single("fontFamily", t.fontFamily[i].1)
  {
    var g5 := GroupEntries("font-family-", "fontFamily", t.fontFamily);
    var a := GroupEntries("text-", "fontSize", t.fontSize)
             + GroupEntries("font-", "fontWeight", t.fontWeight)
             + GroupEntries("leading-", "lineHeight", t.lineHeight)
             + GroupEntries("tracking-", "letterSpacing", t.letterSpacing);
    var e := a + g5;
    assert e == TypographyEntries(t);
    var n := |a| + i;
    assert e[n] == g5[i];
    forall m | n < m < |e|
      ensures e[m].0 != e[n].0
    {
      assert e[m] == g5[m - |a|];
      SamePrefixDiffers("font-family-", t.fontFamily[m - |a|].0, t.fontFamily[i].0);
    }
    assert LastWithKey(e, n);
  }

  /** A font weight named "family-k" gives the same class name as font
      family k, and the font family overwrites it. */
  lemma WeightFamilyCollision(t: Typography, k: string, w: StyleValue, f: StyleValue)
    requires t.fontWeight == [("family-" + k, w)] && t.fontFamily == [(k, f)]
    ensures "font-" + ("family-" + k) == "font-family-" + k
    ensures TypographyClasses(t)["font-family-" + k] == Single("fontFamily", f)
  {
    assert "font-" + "family-" == "font-family-";
    assert "font-" + ("family-" + k) == ("font-" + "family-") + k;
    FontFamilyWins(t, 0);
  }

  /** Font sizes never collide with a later group: "text-k" holds size k. */
  lemma FontSizeLookup(t: Typography, i: int)
    requires DistinctKeys(t.fontSize) && 0 <= i < |t.fontSize|
    ensures "text-" + t.fontSize[i].0 in TypographyClasses(t)
    ensures TypographyClasses(t)["text-" + t.fontSize[i].0] == Single("fontSize", t.fontSize[i].1)
  {
    var g1 := GroupEntries("text-", "fontSize", t.fontSize);
    var g2 := GroupEntries("font-", "fontWeight", t.fontWeight);
    var g3 := GroupEntries("leading-", "lineHeight", t.lineHeight);
    var g4 := GroupEntries("tracking-", "letterSpacing", t.letterSpacing);
    var g5 := GroupEntries("font-family-", "fontFamily", t.fontFamily);
    var e := g1 + g2 + g3 + g4 + g5;
    assert e == TypographyEntries(t);
    var key := t.fontSize[i].0;
    assert e[i] == g1[i];
    var o2, o3, o4, o5 := |g1|, |g1| + |g2|, |g1| + |g2| + |g3|, |g1| + |g2| + |g3| + |g4|;
    forall m | i < m < |e|
      ensures e[m].0 != e[i].0
    {
      if m < o2 {
        assert e[m] == g1[m];
        SamePrefixDiffers("text-", t.fontSize[m].0, key);
      } else if m < o3 {
        assert e[m] == g2[m - o2];
        PrefixesClash("font-", "text-", t.fontWeight[m - o2].0, key);
      } else if m < o4 {
        assert e[m] == g3[m - o3];
        PrefixesClash("leading-", "text-", t.lineHeight[m - o3].0, key);
      } else if m < o5 {
        assert e[m] == g4[m - o4];
        PrefixesClash("tracking-", "text-", t.letterSpacing[m - o4].0, key);
      } else {
        assert e[m] == g5[m - o5];
        PrefixesClash("font-family-", "text-", t.fontFamily[m - o5].0, key);
      }
    }
    assert LastWithKey(e, i);
  }

  // -------------------------------------------------------------- utilities

  /** The layout classes every theme has. */
  const FIXED_UTILITIES: seq<(string, Style)> := [
    ("flex", Single("display", Str("flex"))),
    ("flex-row", Single("flexDirection", Str("row"))),
    ("flex-col", Single("flexDirection", Str("column"))),
    ("items-center", Single("alignItems", Str("center"))),
    ("items-start", Single("alignItems", Str("flex-start"))),
    ("items-end", Single("alignItems", Str("flex-end"))),
    ("justify-center", Single("justifyContent", Str("center"))),
    ("justify-start", Single("justifyContent", Str("flex-start"))),
    ("justify-end", Single("justifyContent", Str("flex-end"))),
    ("justify-between", Single("justifyContent", Str("space-between"))),
    ("justify-around", Single("justifyContent", Str("space-around"))),
    ("absolute", Single("position", Str("absolute"))),
    ("relative", Single("position", Str("relative"))),
    ("hidden", Single("display", Str("none"))),
    ("w-full", Single("width", Str("100%"))),
    ("h-full", Single("height", Str("100%")))
  ]

  function RoundedEntries(radius: seq<(string, real)>): (e: seq<(string, Style)>)
    ensures |e| == |radius|
    ensures forall i | 0 <= i < |e| :: e[i] == ("rounded-" + radius[i].0, Single("borderRadius", Num(radius[i].1)))
  {
    seq(|radius|, i requires 0 <= i < |radius| => ("rounded-" + radius[i].0, Single("borderRadius", Num(radius[i].1))))
  }

  function ShadowEntries(shadows: seq<(string, map<string, StyleValue>)>): (e: seq<(string, Style)>)
    ensures |e| == |shadows|
    ensures forall i | 0 <= i < |e| :: e[i] == ("shadow-" + shadows[i].0, ShadowStyle(shadows[i].1))
  {
    seq(|shadows|, i requires 0 <= i < |shadows| => ("shadow-" + shadows[i].0, ShadowStyle(shadows[i].1)))
  }

  /** `createUtilityClasses(theme)`: the radius classes, then the shadow
      classes, then the fixed layout classes, spread in that order; the
      fixed classes are always there. */
  function UtilityClasses(radius: seq<(string, real)>, shadows: seq<(string, map<string, StyleValue>)>): (r: map<string, Style>)
    ensures forall i | 0 <= i < |FIXED_UTILITIES| :: FIXED_UTILITIES[i].0 in r
  {
    var e := UtilityEntries(radius, shadows);
    var off := |radius| + |shadows|;
    assert forall i | 0 <= i < |FIXED_UTILITIES| :: e[off + i] == FIXED_UTILITIES[i];
    FromEntries(e)
  }

  /** A name that starts neither like "rounded-" nor like "shadow-". */
  predicate Plain(name: string) {
    |name| >= 2 && (name[0] != 'r' || name[1] != 'o') && (name[0] != 's' || name[1] != 'h')
  }

  lemma FixedNamesPlain()
    ensures forall i | 0 <= i < |FIXED_UTILITIES| :: Plain(FIXED_UTILITIES[i].0)
  {
    forall i | 0 <= i < |FIXED_UTILITIES|
      ensures Plain(FIXED_UTILITIES[i].0)
    {
      match i
      case 0 => case 1 => case 2 => case 3 => case 4 => case 5 => case 6 => case 7 =>
      case 8 => case 9 => case 10 => case 11 => case 12 => case 13 => case 14 => case 15 =>
    }
  }

  /** No fixed class is named like a radius or a shadow class. */
  lemma FixedNotTokenClass(idx: int, key: string)
    requires 0 <= idx < |FIXED_UTILITIES|
    ensures FIXED_UTILITIES[idx].0 != "rounded-" + key && FIXED_UTILITIES[idx].0 != "shadow-" + key
  {
    FixedNamesPlain();
    var name := FIXED_UTILITIES[idx].0;
    PrefixesClash(name, "rounded-", [], key);
    PrefixesClash(name, "shadow-", [], key);
    assert name + [] == name;
  }

  /** The entries `createUtilityClasses` spreads, in order. */
  function UtilityEntries(radius: seq<(string, real)>, shadows: seq<(string, map<string, StyleValue>)>): seq<(string, Style)> {
    RoundedEntries(radius) + ShadowEntries(shadows) + FIXED_UTILITIES
  }

  lemma UtilityLookup(radius: seq<(string, real)>, shadows: seq<(string, map<string, StyleValue>)>, n: int)
    requires 0 <= n < |UtilityEntries(radius, shadows)| && LastWithKey(UtilityEntries(radius, shadows), n)
    ensures UtilityEntries(radius, shadows)[n].0 in UtilityClasses(radius, shadows)
    ensures UtilityClasses(radius, shadows)[UtilityEntries(radius, shadows)[n].0] == UtilityEntries(radius, shadows)[n].1
  {
  }

  /** Every "rounded-k" class holds radius k. */
  lemma RoundedLookup(radius: seq<(string, real)>, shadows: seq<(string, map<string, StyleValue>)>, i: int)
    requires DistinctKeys(radius) && 0 <= i < |radius|
    ensures "rounded-" + radius[i].0 in UtilityClasses(radius, shadows)
    ensures UtilityClasses(radius, shadows)["rounded-" + radius[i].0] == Single("borderRadius", Num(radius[i].1))
  {
    RoundedLast(radius, shadows, i);
    UtilityLookup(radius, shadows, i);
  }

  lemma RoundedLast(radius: seq<(string, real)>, shadows: seq<(string, map<string, StyleValue>)>, i: int)
    requires DistinctKeys(radius) && 0 <= i < |radius|
    ensures UtilityEntries(radius, shadows)[i] == ("rounded-" + radius[i].0, Single("borderRadius", Num(radius[i].1)))
    ensures LastWithKey(UtilityEntries(radius, shadows), i)
  {
    var r := RoundedEntries(radius);
    var s := ShadowEntries(shadows);
    var e := r + s + FIXED_UTILITIES;
    var key := radius[i].0;
    assert e[i] == r[i];
    forall m | i < m < |e|
      ensures e[m].0 != e[i].0
    {
      if m < |r| {
        assert e[m] == r[m];
        SamePrefixDiffers("rounded-", radius[m].0, key);
      } else if m < |r| + |s| {
        assert e[m] == s[m - |r|];
        PrefixesClash("shadow-", "rounded-", shadows[m - |r|].0, key);
      } else {
        assert e[m] == FIXED_UTILITIES[m - |r| - |s|];
        FixedNotTokenClass(m - |r| - |s|, key);
      }
    }
  }

  /** Every "shadow-k" class is shadow k as it is in the theme. */
  lemma ShadowLookup(radius: seq<(string, real)>, shadows: seq<(string, map<string, StyleValue>)>, i: int)
    requires DistinctKeys(shadows) && 0 <= i < |shadows|
    ensures "shadow-" + shadows[i].0 in UtilityClasses(radius, shadows)
    ensures UtilityClasses(radius, shadows)["shadow-" + shadows[i].0] == ShadowStyle(shadows[i].1)
  {
    ShadowLast(radius, shadows, i);
    UtilityLookup(radius, shadows, |radius| + i);
  }

  lemma ShadowLast(radius: seq<(string, real)>, shadows: seq<(string, map<string, StyleValue>)>, i: int)
    requires DistinctKeys(shadows) && 0 <= i < |shadows|
    ensures UtilityEntries(radius, shadows)[|radius| + i] == ("shadow-" + shadows[i].0, ShadowStyle(shadows[i].1))
    ensures LastWithKey(UtilityEntries(radius, shadows), |radius| + i)
  {
    var r := RoundedEntries(radius);
    var s := ShadowEntries(shadows);
    var e := r + s + FIXED_UTILITIES;
    var key := shadows[i].0;
    var n := |r| + i;
    assert e[n] == s[i];
    forall m | n < m < |e|
      ensures e[m].0 != e[n].0
    {
      if m < |r| + |s| {
        assert e[m] == s[m - |r|];
        SamePrefixDiffers("shadow-", shadows[m - |r|].0, key);
      } else {
        assert e[m] == FIXED_UTILITIES[m - |r| - |s|];
        FixedNotTokenClass(m - |r| - |s|, key);
      }
    }
  }
}
