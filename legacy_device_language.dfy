/** The older device-language detection of `i18n/index.ts`: the part of
    the locale before its first "_", with no lower-casing, no "-" split
    and no check against the supported languages. */
module LegacyDeviceLanguage {
  import opened Wrappers
  import opened Strings
  import DeviceLanguage

  type Platform = DeviceLanguage.Platform
  type IosSettings = DeviceLanguage.IosSettings
  type AndroidManager = DeviceLanguage.AndroidManager

  /** `locale?.split('_')[0] || 'en'`: the part before the first "_",
      or "en" when there is no locale or that part is empty. */
  function LanguageOf(locale: Option<string>): (r: string)
    ensures r != []
    ensures '_' !in r
    ensures locale.None? ==> r == "en"
    ensures locale.Some? && Split(locale.value, '_')[0] != [] ==> r == Split(locale.value, '_')[0]
  {
    if locale.Some? && Split(locale.value, '_')[0] != [] then Split(locale.value, '_')[0] else "en"
  }

  /** The locale the platform reports: on iOS `AppleLocale` when it is
      non-empty, otherwise the first of `AppleLanguages`; on Android the
      manager's `localeIdentifier`. */
  function DeviceLocale(platform: Platform, ios: Option<IosSettings>, android: Option<AndroidManager>): (r: Option<string>)
    ensures platform.Ios? && ios.Some? && ios.value.appleLocale.Some? && ios.value.appleLocale.value != [] ==>
              r == ios.value.appleLocale
    ensures platform.Ios? && ios.Some? && !(ios.value.appleLocale.Some? && ios.value.appleLocale.value != []) &&
            ios.value.appleLanguages.Some? && |ios.value.appleLanguages.value| > 0 ==>
              r == Some(ios.value.appleLanguages.value[0])
    ensures platform.Ios? && (ios.None? || (!(ios.value.appleLocale.Some? && ios.value.appleLocale.value != []) &&
            !(ios.value.appleLanguages.Some? && |ios.value.appleLanguages.value| > 0))) ==>
              r.None?
    ensures platform.Android? ==> r == (if android.Some? then android.value.localeIdentifier else None)
  {
    if platform.Ios? then
      if ios.None? then None
      else if ios.value.appleLocale.Some? && ios.value.appleLocale.value != [] then ios.value.appleLocale
      else if ios.value.appleLanguages.Some? && |ios.value.appleLanguages.value| > 0 then Some(ios.value.appleLanguages.value[0])
      else None
    else if android.Some? then android.value.localeIdentifier
    else None
  }

  /** `getDeviceLanguage()`: the language part of the device locale, "en"
      when none is found. */
  function GetDeviceLanguage(platform: Platform, ios: Option<IosSettings>, android: Option<AndroidManager>): (r: string)
    ensures r != [] && '_' !in r
    ensures DeviceLocale(platform, ios, android).None? ==> r == "en"
  {
    LanguageOf(DeviceLocale(platform, ios, android))
  }

  /** A locale whose language part is a non-empty word free of "_" gives
      that word as it is. */
  lemma LanguageOfWord(w: string, rest: string)
    requires w != [] && '_' !in w
    ensures LanguageOf(Some(w + ['_'] + rest)) == w
    ensures LanguageOf(Some(w)) == w
  {
    SplitCons(w, rest, '_');
    SplitNoSeparator(w, '_');
  }

  /** Where the two detections differ: here an unsupported language is
      kept and a "-" tag is not split, where `src/i18n/index.ts` falls
      back to "en" and drops the region. */
  lemma DiffersFromCurrent()
    ensures LanguageOf(Some("fr_FR")) == "fr" && DeviceLanguage.ExtractLanguageCode(Some("fr_FR")) == "en"
    ensures LanguageOf(Some("en-US")) == "en-US" && DeviceLanguage.ExtractLanguageCode(Some("en-US")) == "en"
  {
    assert "fr_FR" == "fr" + ['_'] + "FR";
    LanguageOfWord("fr", "FR");
    DeviceLanguage.ExampleUnsupported();
    DeviceLanguage.ExampleTag();
    LanguageOfWord("en-US", []);
  }

  /** An empty language part, as in "_US", falls back to "en". */
  lemma EmptyPartFallsBack(rest: string)
    ensures LanguageOf(Some(['_'] + rest)) == "en"
  {
    SplitCons([], rest, '_');
    assert [] + ['_'] + rest == ['_'] + rest;
  }
}
