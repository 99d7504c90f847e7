/** The class-name side of the responsive typography in
    `src/utils/typography.ts`: the ordered font-size scale and clamped
    shifts along it, the reader's text-size preference, device
    classification by the smaller window dimension, the size class chosen
    per device, and the preset class strings. The window dimensions and
    the pixel ratio are arguments. */
module Typography {
  import opened Strings

  datatype FontSize = Xs | Sm | Md | Lg | Xl | Xl2 | Xl3 | Xl4 | Xl5 | Xl6

  /** The size's key in `BASE_FONT_SIZES`. */
  function Name(size: FontSize): (r: string)
    ensures r != [] && ' ' !in r
  {
    match size
    case Xs => "xs"
    case Sm => "sm"
    case Md => "md"
    case Lg => "lg"
    case Xl => "xl"
    case Xl2 => "2xl"
    case Xl3 => "3xl"
    case Xl4 => "4xl"
    case Xl5 => "5xl"
    case Xl6 => "6xl"
  }

  const FONT_SIZE_ORDER: seq<FontSize> := [Xs, Sm, Md, Lg, Xl, Xl2, Xl3, Xl4, Xl5, Xl6]
  const LAST_INDEX: int := 9

  /** `FONT_SIZE_ORDER.indexOf(size)`; every size is on the scale, so the
      `-1` branch of `shiftFontSize` is never taken. */
  function IndexOf(size: FontSize): (i: nat)
    ensures i < |FONT_SIZE_ORDER| && FONT_SIZE_ORDER[i] == size
  {
    match size
    case Xs => 0
    case Sm => 1
    case Md => 2
    case Lg => 3
    case Xl => 4
    case Xl2 => 5
    case Xl3 => 6
    case Xl4 => 7
    case Xl5 => 8
    case Xl6 => 9
  }

  /** The scale lists each size once, so position and size determine each other. */
  lemma IndexOfOrder(i: int)
    requires 0 <= i < |FONT_SIZE_ORDER|
    ensures IndexOf(FONT_SIZE_ORDER[i]) == i
  {
  }

  function Clamp(x: int, lo: int, hi: int): int
    requires lo <= hi
  {
    if x < lo then lo else if x > hi then hi else x
  }

  /** `shiftFontSize(size, shift)`: the size `shift` steps along the scale,
      stopping at either end. */
  function ShiftFontSize(size: FontSize, shift: int): (r: FontSize)
    ensures IndexOf(r) == Clamp(IndexOf(size) + shift, 0, LAST_INDEX)
    ensures shift >= 0 ==> IndexOf(r) >= IndexOf(size)
    ensures shift <= 0 ==> IndexOf(r) <= IndexOf(size)
  {
    var next := Min(Max(IndexOf(size) + shift, 0), |FONT_SIZE_ORDER| - 1);
    IndexOfOrder(next);
    FONT_SIZE_ORDER[next]
  }

  function Min(a: int, b: int): int {
    if a <= b then a else b
  }

  function Max(a: int, b: int): int {
    if a >= b then a else b
  }

  /** A shift of zero changes nothing. */
  lemma ShiftZero(size: FontSize)
    ensures ShiftFontSize(size, 0) == size
  {
    IndexOfOrder(IndexOf(ShiftFontSize(size, 0)));
  }

  /** Shifting is monotone in the shift. */
  lemma ShiftMonotone(size: FontSize, a: int, b: int)
    requires a <= b
    ensures IndexOf(ShiftFontSize(size, a)) <= IndexOf(ShiftFontSize(size, b))
  {
  }

  /** Two shifts compose into one when the first stays on the scale. */
  lemma ShiftCompose(size: FontSize, a: int, b: int)
    requires 0 <= IndexOf(size) + a <= LAST_INDEX
    ensures ShiftFontSize(ShiftFontSize(size, a), b) == ShiftFontSize(size, a + b)
  {
    var lhs := ShiftFontSize(ShiftFontSize(size, a), b);
    var rhs := ShiftFontSize(size, a + b);
    assert IndexOf(lhs) == IndexOf(rhs);
    IndexOfOrder(IndexOf(lhs));
  }

  datatype TextSizePreference = Smaller | Default | Bigger

  /** `TEXT_SIZE_ADJUSTMENTS`. */
  function Adjustment(p: TextSizePreference): int {
    match p
    case Smaller => -1
    case Default => 0
    case Bigger => 1
  }

  /** `applyTextSizePreference(size, p)`: one step down for "smaller",
      none for "default", one step up for "bigger", stopping at xs and 6xl. */
  function ApplyTextSizePreference(size: FontSize, p: TextSizePreference): (r: FontSize)
    ensures p == Default ==> r == size
    ensures p == Smaller ==> IndexOf(r) == Max(IndexOf(size) - 1, 0)
    ensures p == Bigger ==> IndexOf(r) == Min(IndexOf(size) + 1, LAST_INDEX)
  {
    ShiftZero(size);
    ShiftFontSize(size, Adjustment(p))
  }

  /** The preferences saturate at the ends of the scale. */
  lemma PreferenceSaturates()
    ensures ApplyTextSizePreference(Xl6, Bigger) == Xl6
    ensures ApplyTextSizePreference(Xs, Smaller) == Xs
  {
    IndexOfOrder(9);
    IndexOfOrder(0);
  }

  /** Between the ends, "smaller" then "bigger" (or the reverse) gives the
      size back. */
  lemma SmallerThenBigger(size: FontSize)
    requires size != Xs && size != Xl6
    ensures ApplyTextSizePreference(ApplyTextSizePreference(size, Smaller), Bigger) == size
    ensures ApplyTextSizePreference(ApplyTextSizePreference(size, Bigger), Smaller) == size
  {
    ShiftCompose(size, -1, 1);
    ShiftCompose(size, 1, -1);
    ShiftZero(size);
  }

  /** At xs the round trip does not hold: "smaller" saturates and "bigger"
      then moves up to sm. */
  lemma SmallerThenBiggerAtXs()
    ensures ApplyTextSizePreference(ApplyTextSizePreference(Xs, Smaller), Bigger) == Sm
  {
    IndexOfOrder(0);
    IndexOfOrder(1);
  }

  datatype DeviceType = Phone | Tablet | Desktop

  const BREAKPOINT_TABLET: real := 768.0
  const BREAKPOINT_DESKTOP: real := 1024.0

  function MinReal(a: real, b: real): real {
    if a <= b then a else b
  }

  /** `getDeviceType()` for a window of `width` by `height`. */
  function GetDeviceType(width: real, height: real): (d: DeviceType)
    ensures d == Desktop <==> width >= BREAKPOINT_DESKTOP && height >= BREAKPOINT_DESKTOP
    ensures d == Tablet <==> width >= BREAKPOINT_TABLET && height >= BREAKPOINT_TABLET
                             && (width < BREAKPOINT_DESKTOP || height < BREAKPOINT_DESKTOP)
    ensures d == Phone <==> width < BREAKPOINT_TABLET || height < BREAKPOINT_TABLET
  {
    var minDimension := MinReal(width, height);
    if minDimension >= BREAKPOINT_DESKTOP then Desktop
    else if minDimension >= BREAKPOINT_TABLET then Tablet
    else Phone
  }

  /** Turning the device round does not change its class. */
  lemma DeviceTypeSymmetric(width: real, height: real)
    ensures GetDeviceType(width, height) == GetDeviceType(height, width)
  {
  }

  function Rank(d: DeviceType): nat {
    match d
    case Phone => 0
    case Tablet => 1
    case Desktop => 2
  }

  /** A larger window never gets a smaller class. */
  lemma DeviceTypeMonotone(w1: real, h1: real, w2: real, h2: real)
    requires w1 <= w2 && h1 <= h2
    ensures Rank(GetDeviceType(w1, h1)) <= Rank(GetDeviceType(w2, h2))
  {
  }

  /** The tablet `sizeMap` of `getResponsiveTextClass`. */
  function TabletClass(size: FontSize): string {
    match size
    case Xs => "text-sm"
    case Sm => "text-md"
    case Md => "text-lg"
    case Lg => "text-xl"
    case Xl => "text-2xl"
    case Xl2 => "text-3xl"
    case Xl3 => "text-4xl"
    case Xl4 => "text-5xl"
    case Xl5 => "text-6xl"
    case Xl6 => "text-6xl"
  }

  /** The high-density phone `sizeMap` of `getResponsiveTextClass`. */
  function DensePhoneClass(size: FontSize): string {
    match size
    case Xs => "text-xs"
    case Sm => "text-sm"
    case Md => "text-md"
    case Lg => "text-lg"
    case Xl => "text-xl"
    case Xl2 => "text-2xl"
    case Xl3 => "text-3xl"
    case Xl4 => "text-4xl"
    case Xl5 => "text-5xl"
    case Xl6 => "text-6xl"
  }

  /** `text-<size>`. */
  function SizeClass(size: FontSize): (r: string)
    ensures ' ' !in r
  {
    "text-" + Name(size)
  }

  /** `getResponsiveTextClass(size)` on a device of class `device` with
      pixel ratio `pixelRatio`. */
  function GetResponsiveTextClass(size: FontSize, device: DeviceType, pixelRatio: real): string {
    if device == Tablet then TabletClass(size)
    else if device == Phone && pixelRatio >= 3.0 then DensePhoneClass(size)
    else SizeClass(size)
  }

  /** The size-class rule behind the tables: tablets get the next size up
      (6xl stays 6xl), and every other device the size itself. */
  lemma ResponsiveTextClassRule(size: FontSize, device: DeviceType, pixelRatio: real)
    ensures device == Tablet ==> GetResponsiveTextClass(size, device, pixelRatio) == SizeClass(ShiftFontSize(size, 1))
    ensures device != Tablet ==> GetResponsiveTextClass(size, device, pixelRatio) == SizeClass(size)
  {
    if device == Tablet {
      TabletClassRule(size);
    } else {
      DensePhoneClassRule(size);
    }
  }

  /** The tablet table is the scale shifted up by one step. */
  lemma TabletClassRule(size: FontSize)
    ensures TabletClass(size) == SizeClass(ShiftFontSize(size, 1))
  {
    var up := ShiftFontSize(size, 1);
    IndexOfOrder(IndexOf(up));
    match size
    case Xs => assert up == Sm;
    case Sm => assert up == Md;
    case Md => assert up == Lg;
    case Lg => assert up == Xl;
    case Xl => assert up == Xl2;
    case Xl2 => assert up == Xl3;
    case Xl3 => assert up == Xl4;
    case Xl4 => assert up == Xl5;
    case Xl5 => assert up == Xl6;
    case Xl6 => assert up == Xl6;
  }

  /** The high-density phone table is the scale itself. */
  lemma DensePhoneClassRule(size: FontSize)
    ensures DensePhoneClass(size) == SizeClass(size)
  {
  }

  datatype Preset = H1 | H2 | H3 | H4 | H5 | H6 | Body | BodyLarge | BodySmall | Button | Caption | Label | Error | Success

  /** An entry of `TYPOGRAPHY_PRESETS`: the colour classes for the light
      and the dark scheme are kept as the two words of `contrast`. */
  datatype PresetConfig = PresetConfig(size: FontSize, weight: string, light: string, dark: string)

  const DEFAULT_LIGHT := "text-text-light"
  const DEFAULT_DARK := "dark:text-text-dark"

  function PresetOf(p: Preset): PresetConfig {
    match p
    case H1 => PresetConfig(Xl4, BOLD, DEFAULT_LIGHT, DEFAULT_DARK)
    case H2 => PresetConfig(Xl3, BOLD, DEFAULT_LIGHT, DEFAULT_DARK)
    case H3 => PresetConfig(Xl2, SEMIBOLD, DEFAULT_LIGHT, DEFAULT_DARK)
    case H4 => PresetConfig(Xl, SEMIBOLD, DEFAULT_LIGHT, DEFAULT_DARK)
    case H5 => PresetConfig(Lg, MEDIUM, DEFAULT_LIGHT, DEFAULT_DARK)
    case H6 => PresetConfig(Md, MEDIUM, DEFAULT_LIGHT, DEFAULT_DARK)
    case Body => PresetConfig(Md, NORMAL, DEFAULT_LIGHT, DEFAULT_DARK)
    case BodyLarge => PresetConfig(Lg, NORMAL, DEFAULT_LIGHT, DEFAULT_DARK)
    case BodySmall => PresetConfig(Sm, NORMAL, "text-text-light/80", "dark:text-text-dark/80")
    case Button => PresetConfig(Md, MEDIUM, "text-white", DEFAULT_DARK)
    case Caption => PresetConfig(Xs, NORMAL, "text-text-light/70", "dark:text-text-dark/70")
    case Label => PresetConfig(Sm, MEDIUM, "text-text-light/80", "dark:text-text-dark/80")
    case Error => PresetConfig(Sm, MEDIUM, "text-error", "dark:text-error-light")
    case Success => PresetConfig(Sm, MEDIUM, "text-success", "dark:text-success")
  }

  const BOLD := "font-bold"
  const SEMIBOLD := "font-semibold"
  const MEDIUM := "font-medium"
  const NORMAL := "font-normal"

  /** The weights and colour classes of the table are single words. */
  lemma TableWords()
    ensures ' ' !in BOLD && ' ' !in SEMIBOLD && ' ' !in MEDIUM && ' ' !in NORMAL
    ensures ' ' !in DEFAULT_LIGHT && ' ' !in DEFAULT_DARK
    ensures ' ' !in "text-text-light/80" && ' ' !in "dark:text-text-dark/80"
    ensures ' ' !in "text-text-light/70" && ' ' !in "dark:text-text-dark/70"
    ensures ' ' !in "text-white" && ' ' !in "text-error" && ' ' !in "dark:text-error-light"
    ensures ' ' !in "text-success" && ' ' !in "dark:text-success"
  {
    WeightWords();
    DefaultColourWords();
    MutedColourWords();
    StatusColourWords();
  }

  lemma WeightWords()
    ensures ' ' !in BOLD && ' ' !in SEMIBOLD && ' ' !in MEDIUM && ' ' !in NORMAL
  {
  }

  lemma DefaultColourWords()
    ensures ' ' !in DEFAULT_LIGHT && ' ' !in DEFAULT_DARK
  {
  }

  lemma MutedColourWords()
    ensures ' ' !in "text-text-light/80" && ' ' !in "dark:text-text-dark/80"
    ensures ' ' !in "text-text-light/70" && ' ' !in "dark:text-text-dark/70"
  {
  }

  lemma StatusColourWords()
    ensures ' ' !in "text-white" && ' ' !in "text-error" && ' ' !in "dark:text-error-light"
    ensures ' ' !in "text-success" && ' ' !in "dark:text-success"
  {
  }

  /** No weight or colour class of the table contains a space. */
  lemma PresetWords(p: Preset)
    ensures var c := PresetOf(p); ' ' !in c.weight && ' ' !in c.light && ' ' !in c.dark
  {
    TableWords();
  }

  /** The `contrast` string of a preset. */
  function Contrast(c: PresetConfig): string {
    c.light + " " + c.dark
  }

  /** `${sizeClass} ${weight} ${contrast}`. */
  function PresetString(sizeClass: string, c: PresetConfig): string {
    sizeClass + " " + c.weight + " " + Contrast(c)
  }

  /** Its words are the size class, the weight and the two colour classes,
      in that order, separated by single spaces. */
  lemma PresetStringWords(sizeClass: string, c: PresetConfig)
    requires ' ' !in sizeClass && ' ' !in c.weight && ' ' !in c.light && ' ' !in c.dark
    ensures Split(PresetString(sizeClass, c), ' ') == [sizeClass, c.weight, c.light, c.dark]
  {
    SplitCons(c.light, c.dark, ' ');
    SplitPrefix(c.dark, [], ' ');
    assert c.dark + [] == c.dark;
    assert Split(c.dark, ' ') == [c.dark];
    assert PresetString(sizeClass, c) == sizeClass + " " + (c.weight + " " + Contrast(c));
    SplitCons(sizeClass, c.weight + " " + Contrast(c), ' ');
    assert c.weight + " " + Contrast(c) == c.weight + " " + (c.light + " " + c.dark);
    SplitCons(c.weight, c.light + " " + c.dark, ' ');
  }

  /** `getTypographyPreset(p)`. */
  function GetTypographyPreset(p: Preset, device: DeviceType, pixelRatio: real): (r: string)
    ensures Split(r, ' ') == [GetResponsiveTextClass(PresetOf(p).size, device, pixelRatio),
                              PresetOf(p).weight, PresetOf(p).light, PresetOf(p).dark]
  {
    ResponsiveTextClassRule(PresetOf(p).size, device, pixelRatio);
    PresetWords(p);
    PresetStringWords(GetResponsiveTextClass(PresetOf(p).size, device, pixelRatio), PresetOf(p));
    PresetString(GetResponsiveTextClass(PresetOf(p).size, device, pixelRatio), PresetOf(p))
  }

  /** The hook's `getResponsiveTextClass`: the preference is applied to
      the size before the class is chosen. */
  function PreferredTextClass(size: FontSize, pref: TextSizePreference, device: DeviceType, pixelRatio: real): string {
    GetResponsiveTextClass(ApplyTextSizePreference(size, pref), device, pixelRatio)
  }

  /** The hook's `getTypographyPreset`. */
  function PreferredPreset(p: Preset, pref: TextSizePreference, device: DeviceType, pixelRatio: real): string {
    PresetString(PreferredTextClass(PresetOf(p).size, pref, device, pixelRatio), PresetOf(p))
  }

  /** With the default preference the hook agrees with the plain
      functions; otherwise its preset carries the class of the adjusted
      size as its first word, followed by the preset's own weight and
      colours. */
  lemma PreferredAgrees(size: FontSize, p: Preset, pref: TextSizePreference, device: DeviceType, pixelRatio: real)
    ensures pref == Default ==> PreferredTextClass(size, pref, device, pixelRatio) == GetResponsiveTextClass(size, device, pixelRatio)
    ensures pref == Default ==> PreferredPreset(p, pref, device, pixelRatio) == GetTypographyPreset(p, device, pixelRatio)
    ensures Split(PreferredPreset(p, pref, device, pixelRatio), ' ')
      == [GetResponsiveTextClass(ApplyTextSizePreference(PresetOf(p).size, pref), device, pixelRatio),
          PresetOf(p).weight, PresetOf(p).light, PresetOf(p).dark]
  {
    var adjusted := ApplyTextSizePreference(PresetOf(p).size, pref);
    ResponsiveTextClassRule(adjusted, device, pixelRatio);
    PresetWords(p);
    PresetStringWords(GetResponsiveTextClass(adjusted, device, pixelRatio), PresetOf(p));
  }
}
