/** The class-name logic of `src/components/common/ResponsiveText.tsx`:
    explicit font-size classes are filtered out of the classes a caller
    passes, so that the size computed for the device is the one that
    applies, and the remaining classes go to `cn`. The merge is a
    parameter here; `ClassNames` shows that the cached `cn` returns what
    the merge returns. */
module ResponsiveText {
  import opened Wrappers
  import opened Strings
  import opened Typography

  const DEFAULT_TEXT_COLOR := "text-text-light dark:text-text-dark"

  /** The whole-token matches of `/^text-(xs|sm|md|lg|xl|2xl|3xl|4xl|5xl|6xl)$/`. */
  const SIZE_CLASSES: set<string> :=
    {"text-xs", "text-sm", "text-md", "text-lg", "text-xl", "text-2xl", "text-3xl", "text-4xl", "text-5xl", "text-6xl"}

  predicate IsSizeToken(t: string) {
    t in SIZE_CLASSES
  }

  /** The pattern matches exactly the size classes of the scale. */
  lemma SizeTokens(size: FontSize)
    ensures IsSizeToken(SizeClass(size))
    ensures !IsSizeToken("text-base") && !IsSizeToken("text-text-light") && !IsSizeToken("text-")
    ensures !IsSizeToken("text-xs ") && !IsSizeToken("text-7xl")
  {
    match size
    case Xs => assert SizeClass(size) == "text-xs";
    case Sm => assert SizeClass(size) == "text-sm";
    case Md => assert SizeClass(size) == "text-md";
    case Lg => assert SizeClass(size) == "text-lg";
    case Xl => assert SizeClass(size) == "text-xl";
    case Xl2 => assert SizeClass(size) == "text-2xl";
    case Xl3 => assert SizeClass(size) == "text-3xl";
    case Xl4 => assert SizeClass(size) == "text-4xl";
    case Xl5 => assert SizeClass(size) == "text-5xl";
    case Xl6 => assert SizeClass(size) == "text-6xl";
  }

  /** The tokens the pattern does not match, in their original order. */
  function KeepNonSize(tokens: seq<string>): (r: seq<string>)
    ensures |r| <= |tokens|
    ensures forall i | 0 <= i < |r| :: !IsSizeToken(r[i])
    ensures forall t :: t in r <==> t in tokens && !IsSizeToken(t)
    ensures (forall t | t in tokens :: ' ' !in t) ==> forall t | t in r :: ' ' !in t
  {
    if tokens == [] then []
    else if IsSizeToken(tokens[0]) then KeepNonSize(tokens[1..])
    else [tokens[0]] + KeepNonSize(tokens[1..])
  }

  /** Keeping the non-size tokens twice is keeping them once. */
  lemma {:induction false} KeepNonSizeIdempotent(tokens: seq<string>)
    ensures KeepNonSize(KeepNonSize(tokens)) == KeepNonSize(tokens)
  {
    if tokens != [] {
      KeepNonSizeIdempotent(tokens[1..]);
      if !IsSizeToken(tokens[0]) {
        assert ([tokens[0]] + KeepNonSize(tokens[1..]))[1..] == KeepNonSize(tokens[1..]);
      }
    }
  }

  /** Filtering a list that starts with known tokens. */
  lemma KeepNonSizeCons(t: string, rest: seq<string>)
    ensures KeepNonSize([t] + rest) == (if IsSizeToken(t) then [] else [t]) + KeepNonSize(rest)
  {
    assert ([t] + rest)[1..] == rest;
  }

  /** What the filter keeps of one token. */
  function Kept(t: string): seq<string> {
    if IsSizeToken(t) then [] else [t]
  }

  /** Filtering a short list, one token at a time. */
  lemma KeepNonSizeTwo(c: string, d: string)
    ensures KeepNonSize([c, d]) == Kept(c) + Kept(d)
  {
    assert [d] == [d] + [];
    KeepNonSizeCons(d, []);
    assert [c, d] == [c] + [d];
    KeepNonSizeCons(c, [d]);
  }

  lemma KeepNonSizeThree(b: string, c: string, d: string)
    ensures KeepNonSize([b, c, d]) == Kept(b) + (Kept(c) + Kept(d))
  {
    KeepNonSizeTwo(c, d);
    assert [b, c, d] == [b] + [c, d];
    KeepNonSizeCons(b, [c, d]);
  }

  lemma KeepNonSizeFour(a: string, b: string, c: string, d: string)
    ensures KeepNonSize([a, b, c, d]) == Kept(a) + (Kept(b) + (Kept(c) + Kept(d)))
  {
    KeepNonSizeThree(b, c, d);
    assert [a, b, c, d] == [a] + [b, c, d];
    KeepNonSizeCons(a, [b, c, d]);
  }

  /** `filterFontSizeClasses(className)`. */
  function FilterFontSizeClasses(className: string): string {
    if className == [] then [] else Join(KeepNonSize(Split(className, ' ')), ' ')
  }

  /** The filtered string splits into exactly the kept tokens, so no token
      of it is a size class and the kept tokens appear in their original
      order; the empty string stays empty. */
  lemma FilterFontSizeClassesSpec(className: string)
    ensures className == [] ==> FilterFontSizeClasses(className) == []
    ensures KeepNonSize(Split(className, ' ')) != [] ==>
      Split(FilterFontSizeClasses(className), ' ') == KeepNonSize(Split(className, ' '))
    ensures forall t | t in Split(FilterFontSizeClasses(className), ' ') :: !IsSizeToken(t)
  {
    var kept := KeepNonSize(Split(className, ' '));
    if className != [] && kept != [] {
      SplitJoin(kept, ' ');
    }
    if className == [] || kept == [] {
      assert FilterFontSizeClasses(className) == [];
      assert Split([], ' ') == [[]];
      assert !IsSizeToken([]);
    }
  }

  /** Filtering twice is filtering once. */
  lemma FilterFontSizeClassesIdempotent(className: string)
    ensures FilterFontSizeClasses(FilterFontSizeClasses(className)) == FilterFontSizeClasses(className)
  {
    var kept := KeepNonSize(Split(className, ' '));
    if className != [] && kept != [] {
      SplitJoin(kept, ' ');
      KeepNonSizeIdempotent(Split(className, ' '));
    }
  }

  /** The class string of a rendered `ResponsiveText`. With a preset, the
      preset's classes for the reader's preference and the caller's
      classes are both filtered; without one, the caller's classes follow
      the default text colour. */
  function TextClassName(preset: Option<Preset>, className: Option<string>, pref: TextSizePreference,
                         device: DeviceType, pixelRatio: real, cn: seq<string> -> string): string {
    match preset
    case Some(p) =>
      cn([FilterFontSizeClasses(PreferredPreset(p, pref, device, pixelRatio)),
          FilterFontSizeClasses(className.GetOr([]))])
    case None =>
      cn([DEFAULT_TEXT_COLOR, FilterFontSizeClasses(className.GetOr([]))])
  }

  /** The weights and colour classes of the preset table are never size classes. */
  lemma PresetWordsKept(p: Preset)
    ensures !IsSizeToken(PresetOf(p).weight) && !IsSizeToken(PresetOf(p).light) && !IsSizeToken(PresetOf(p).dark)
  {
  }

  /** A size class followed by three other words loses exactly the size class. */
  lemma FilterDropsLeadingSize(a: string, b: string, c: string, d: string)
    requires IsSizeToken(a) && !IsSizeToken(b) && !IsSizeToken(c) && !IsSizeToken(d)
    requires ' ' !in a && ' ' !in b && ' ' !in c && ' ' !in d
    ensures FilterFontSizeClasses(PresetString(a, PresetConfig(Xs, b, c, d))) == b + " " + (c + " " + d)
  {
    var s := PresetString(a, PresetConfig(Xs, b, c, d));
    PresetStringWords(a, PresetConfig(Xs, b, c, d));
    assert Split(s, ' ') == [a, b, c, d];
    assert s != [] by {
      assert |Split(s, ' ')| == 4;
    }
    KeepNonSizeFour(a, b, c, d);
    assert Kept(a) == [] && Kept(b) == [b] && Kept(c) == [c] && Kept(d) == [d];
    assert [] + ([b] + ([c] + [d])) == [b, c, d];
    assert KeepNonSize(Split(s, ' ')) == [b, c, d];
    assert Join([b, c, d], ' ') == b + " " + (c + " " + d) by {
      assert [b, c, d][1..] == [c, d];
      assert [c, d][1..] == [d];
      assert Join([d], ' ') == d;
      assert Join([c, d], ' ') == c + [' '] + d;
      assert Join([b, c, d], ' ') == b + [' '] + (c + [' '] + d);
    }
    assert FilterFontSizeClasses(s) == Join([b, c, d], ' ');
  }

  /** With a preset the size class of the preset string is itself filtered
      out: what reaches `cn` is the preset's weight and colour classes, so
      the text size comes only from the computed style. */
  lemma PresetClassesLoseSize(p: Preset, pref: TextSizePreference, device: DeviceType, pixelRatio: real)
    ensures FilterFontSizeClasses(PreferredPreset(p, pref, device, pixelRatio))
      == PresetOf(p).weight + " " + Contrast(PresetOf(p))
  {
    var c := PresetOf(p);
    var adjusted := ApplyTextSizePreference(c.size, pref);
    var sizeClass := PreferredTextClass(c.size, pref, device, pixelRatio);
    ResponsiveTextClassRule(adjusted, device, pixelRatio);
    SizeTokens(adjusted);
    SizeTokens(ShiftFontSize(adjusted, 1));
    PresetWordsKept(p);
    PresetWords(p);
    FilterDropsLeadingSize(sizeClass, c.weight, c.light, c.dark);
    assert PresetString(sizeClass, PresetConfig(Xs, c.weight, c.light, c.dark)) == PresetString(sizeClass, c);
  }

  /** What a rendered `ResponsiveText` hands to `cn`: with a preset, the
      preset's weight and colour classes (never its size class) and then
      the caller's classes without size classes; without one, the default
      text colour and then the caller's filtered classes. An absent
      `className` contributes the empty string. */
  lemma TextClassNameParts(preset: Option<Preset>, className: Option<string>, pref: TextSizePreference,
                           device: DeviceType, pixelRatio: real, cn: seq<string> -> string)
    ensures preset.Some? ==>
              TextClassName(preset, className, pref, device, pixelRatio, cn)
              == cn([PresetOf(preset.value).weight + " " + Contrast(PresetOf(preset.value)),
                     FilterFontSizeClasses(className.GetOr([]))])
    ensures preset.None? ==>
              TextClassName(preset, className, pref, device, pixelRatio, cn)
              == cn([DEFAULT_TEXT_COLOR, FilterFontSizeClasses(className.GetOr([]))])
    ensures className.None? ==> FilterFontSizeClasses(className.GetOr([])) == []
  {
    if preset.Some? {
      PresetClassesLoseSize(preset.value, pref, device, pixelRatio);
    }
  }
}
