/** The theme's own copy of the typography rules,
    `src/theme/utils/typography.ts`, and the hook over it,
    `src/theme/hooks/useResponsiveTypography.ts`.

    The theme's `getDeviceType`, font-size scale, `shiftFontSize`,
    `applyTextSizePreference` and preset table are the same rules as in
    `src/utils/typography.ts` and are modelled once, in `Typography`. The
    size-class tables are modelled here on their own and shown to agree. */
module ThemeTypography {
  import opened Strings
  import opened Typography

  /** The tablet `sizeMap`, listed along the scale. */
  const TABLET_CLASSES: seq<string> :=
    ["text-sm", "text-md", "text-lg", "text-xl", "text-2xl", "text-3xl", "text-4xl", "text-5xl", "text-6xl", "text-6xl"]

  /** The high-density phone `sizeMap`, listed along the scale. */
  const DENSE_PHONE_CLASSES: seq<string> :=
    ["text-xs", "text-sm", "text-md", "text-lg", "text-xl", "text-2xl", "text-3xl", "text-4xl", "text-5xl", "text-6xl"]

  /** `getResponsiveTextClass(size)`. */
  function GetResponsiveTextClass(size: FontSize, device: DeviceType, pixelRatio: real): string {
    if device == Tablet then TABLET_CLASSES[IndexOf(size)]
    else if device == Phone && pixelRatio >= 3.0 then DENSE_PHONE_CLASSES[IndexOf(size)]
    else "text-" + Name(size)
  }

  /** Tablets get the class of the next size up, clamped at 6xl; dense
      phones, other phones and desktops the class of the size itself. The
      theme's tables therefore agree with those of `src/utils/typography.ts`. */
  lemma ResponsiveTextClassRule(size: FontSize, device: DeviceType, pixelRatio: real)
    ensures device == Tablet ==> GetResponsiveTextClass(size, device, pixelRatio) == SizeClass(ShiftFontSize(size, 1))
    ensures device != Tablet ==> GetResponsiveTextClass(size, device, pixelRatio) == SizeClass(size)
    ensures GetResponsiveTextClass(size, device, pixelRatio) == Typography.GetResponsiveTextClass(size, device, pixelRatio)
  {
    Typography.ResponsiveTextClassRule(size, device, pixelRatio);
    var up := ShiftFontSize(size, 1);
    IndexOfOrder(IndexOf(up));
  }

  /** `getTypographyPreset(p)`: class, weight and the colour classes joined
      by single spaces. */
  function GetTypographyPreset(p: Preset, device: DeviceType, pixelRatio: real): (r: string)
    ensures Split(r, ' ') == [GetResponsiveTextClass(PresetOf(p).size, device, pixelRatio),
                              PresetOf(p).weight, PresetOf(p).light, PresetOf(p).dark]
  {
    ResponsiveTextClassRule(PresetOf(p).size, device, pixelRatio);
    PresetWords(p);
    PresetStringWords(GetResponsiveTextClass(PresetOf(p).size, device, pixelRatio), PresetOf(p));
    GetResponsiveTextClass(PresetOf(p).size, device, pixelRatio) + " " + PresetOf(p).weight + " " + Contrast(PresetOf(p))
  }

  /** The hook's `getResponsiveTextClass`: the preference is applied first. */
  function PreferredTextClass(size: FontSize, pref: TextSizePreference, device: DeviceType, pixelRatio: real): string {
    GetResponsiveTextClass(ApplyTextSizePreference(size, pref), device, pixelRatio)
  }

  /** The hook's `getTypographyPreset`. */
  function PreferredPreset(p: Preset, pref: TextSizePreference, device: DeviceType, pixelRatio: real): (r: string)
    ensures Split(r, ' ') == [SizeClass(if device == Tablet then ShiftFontSize(ApplyTextSizePreference(PresetOf(p).size, pref), 1)
                                        else ApplyTextSizePreference(PresetOf(p).size, pref)),
                              PresetOf(p).weight, PresetOf(p).light, PresetOf(p).dark]
    ensures pref == Default ==> r == GetTypographyPreset(p, device, pixelRatio)
  {
    var adjusted := ApplyTextSizePreference(PresetOf(p).size, pref);
    ResponsiveTextClassRule(adjusted, device, pixelRatio);
    PresetWords(p);
    PresetStringWords(PreferredTextClass(PresetOf(p).size, pref, device, pixelRatio), PresetOf(p));
    PresetString(PreferredTextClass(PresetOf(p).size, pref, device, pixelRatio), PresetOf(p))
  }

  /** On a tablet a "bigger" preference and the tablet step add up, still
      stopping at 6xl. */
  lemma TabletBiggerClass(size: FontSize, pixelRatio: real)
    ensures PreferredTextClass(size, Bigger, Tablet, pixelRatio)
      == SizeClass(ShiftFontSize(size, 2))
  {
    var adjusted := ApplyTextSizePreference(size, Bigger);
    ResponsiveTextClassRule(adjusted, Tablet, pixelRatio);
    if IndexOf(size) < LAST_INDEX {
      ShiftCompose(size, 1, 1);
    } else {
      IndexOfOrder(IndexOf(ShiftFontSize(size, 2)));
      IndexOfOrder(IndexOf(adjusted));
      IndexOfOrder(IndexOf(ShiftFontSize(adjusted, 1)));
    }
  }
}
