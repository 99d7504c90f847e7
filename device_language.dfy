/** The device-language detection of `src/i18n/index.ts`: the language
    part of a locale identifier, restricted to the supported languages,
    read from the iOS settings or the Android I18n manager.

    The native modules are parameters: a missing module or setting is
    None. Only string settings are modelled. */
module DeviceLanguage {
  import opened Wrappers
  import opened Strings

  const FALLBACK_LANGUAGE := "en"
  const SUPPORTED_LANGUAGES: seq<string> := ["en", "vi", "es", "zh"]

  datatype Platform = Ios | Android

  /** `NativeModules.SettingsManager.settings`: `AppleLocale` and `AppleLanguages`. */
  datatype IosSettings = IosSettings(appleLocale: Option<string>, appleLanguages: Option<seq<string>>)

  /** `NativeModules.I18nManager` and its `localeIdentifier`. */
  datatype AndroidManager = AndroidManager(localeIdentifier: Option<string>)

  /** `locale.split("_")[0].split("-")[0].toLowerCase()`. */
  function LanguageCode(locale: string): string {
    ToLower(Split(Split(locale, '_')[0], '-')[0])
  }

  /** The language code is the lower-cased part of the locale before its
      first "_" or "-". */
  lemma LanguageCodePrefix(locale: string)
    ensures exists n | 0 <= n <= |locale| ::
      && LanguageCode(locale) == ToLower(locale[..n])
      && '_' !in locale[..n] && '-' !in locale[..n]
      && (n == |locale| || locale[n] == '_' || locale[n] == '-')
  {
    var a := Split(locale, '_')[0];
    SplitFirstPiece(locale, '_');
    var b := Split(a, '-')[0];
    SplitFirstPiece(a, '-');
    assert '_' !in a;
    assert b == a[..|b|];
    var n := |b|;
    assert locale[..n] == b;
    assert n == |locale| || locale[n] == '_' || locale[n] == '-' by {
      if n < |locale| {
        if n < |a| {
          assert locale[n] == a[n];
        } else {
          assert n == |a|;
        }
      }
    }
  }

  /** A locale that starts with a word free of "_" and "-", followed by
      one of them or nothing, yields that word lower-cased. */
  lemma LanguageCodeOfWord(w: string, sep: char, rest: string)
    requires '_' !in w && '-' !in w
    requires sep == '_' || sep == '-'
    ensures LanguageCode(w + [sep] + rest) == ToLower(w)
    ensures LanguageCode(w) == ToLower(w)
  {
    SplitNoSeparator(w, '-');
    SplitNoSeparator(w, '_');
    if sep == '_' {
      SplitCons(w, rest, '_');
      assert Split(w + [sep] + rest, '_')[0] == w;
    } else {
      var tail := Split(rest, '_')[0];
      FirstPieceKeepsOther(w, sep, rest, '_');
      assert Split(w + [sep] + rest, '_')[0] == w + [sep] + tail;
      SplitCons(w, tail, '-');
      assert Split(w + [sep] + tail, '-')[0] == w;
    }
  }

  /** `extractLanguageCode(locale)`: an absent or empty locale gives the
      fallback; otherwise the language code when it is supported, and the
      fallback when it is not. */
  function ExtractLanguageCode(locale: Option<string>): (r: string)
    ensures r in SUPPORTED_LANGUAGES
    ensures locale.None? || locale == Some([]) ==> r == FALLBACK_LANGUAGE
    ensures locale.Some? && locale.value != [] && LanguageCode(locale.value) in SUPPORTED_LANGUAGES ==>
              r == LanguageCode(locale.value)
    ensures locale.Some? && locale.value != [] && LanguageCode(locale.value) !in SUPPORTED_LANGUAGES ==>
              r == FALLBACK_LANGUAGE
  {
    if locale.None? || locale.value == [] then FALLBACK_LANGUAGE
    else
      var languageCode := LanguageCode(locale.value);
      if languageCode in SUPPORTED_LANGUAGES then languageCode else FALLBACK_LANGUAGE
  }

  /** `getIOSLanguage()`: `AppleLocale` when it is set and non-empty,
      otherwise the first of `AppleLanguages` when there is one, otherwise
      the fallback. */
  function GetIosLanguage(settings: Option<IosSettings>): (r: string)
    ensures r in SUPPORTED_LANGUAGES
    ensures settings.None? ==> r == FALLBACK_LANGUAGE
    ensures settings.Some? && settings.value.appleLocale.Some? && settings.value.appleLocale.value != [] ==>
              r == ExtractLanguageCode(settings.value.appleLocale)
    ensures settings.Some? && !(settings.value.appleLocale.Some? && settings.value.appleLocale.value != []) &&
            settings.value.appleLanguages.Some? && |settings.value.appleLanguages.value| > 0 ==>
              r == ExtractLanguageCode(Some(settings.value.appleLanguages.value[0]))
    ensures settings.Some? && !(settings.value.appleLocale.Some? && settings.value.appleLocale.value != []) &&
            !(settings.value.appleLanguages.Some? && |settings.value.appleLanguages.value| > 0) ==>
              r == FALLBACK_LANGUAGE
  {
    match settings
    case None => FALLBACK_LANGUAGE
    case Some(s) =>
      if s.appleLocale.Some? && s.appleLocale.value != [] then ExtractLanguageCode(s.appleLocale)
      else if s.appleLanguages.Some? && |s.appleLanguages.value| > 0 then ExtractLanguageCode(Some(s.appleLanguages.value[0]))
      else FALLBACK_LANGUAGE
  }

  /** `getAndroidLanguage()`: the manager's locale identifier, or the fallback
      without a manager. */
  function GetAndroidLanguage(manager: Option<AndroidManager>): (r: string)
    ensures r in SUPPORTED_LANGUAGES
    ensures manager.None? ==> r == FALLBACK_LANGUAGE
    ensures manager.Some? ==> r == ExtractLanguageCode(manager.value.localeIdentifier)
  {
    match manager
    case None => FALLBACK_LANGUAGE
    case Some(m) => ExtractLanguageCode(m.localeIdentifier)
  }

  /** `getDeviceLanguage()`. */
  function GetDeviceLanguage(platform: Platform, ios: Option<IosSettings>, android: Option<AndroidManager>): (r: string)
    ensures r in SUPPORTED_LANGUAGES
    ensures platform == Ios ==> r == GetIosLanguage(ios)
    ensures platform == Android ==> r == GetAndroidLanguage(android)
  {
    if platform == Ios then GetIosLanguage(ios) else GetAndroidLanguage(android)
  }

  /** Without a locale string found, the device language is the fallback:
      on iOS an absent or empty `AppleLocale` with absent or empty
      `AppleLanguages`, or an empty first language; on Android an absent
      or empty identifier. */
  lemma NoLocaleFallback(platform: Platform, ios: Option<IosSettings>, android: Option<AndroidManager>)
    requires ios.None? || (
      && (ios.value.appleLocale.None? || ios.value.appleLocale.value == [])
      && (ios.value.appleLanguages.None? || |ios.value.appleLanguages.value| == 0 || ios.value.appleLanguages.value[0] == []))
    requires android.None? || android.value.localeIdentifier.None? || android.value.localeIdentifier.value == []
    ensures GetDeviceLanguage(platform, ios, android) == FALLBACK_LANGUAGE
  {
  }

  /** A locale made of a word free of "_" and "-", a separator and a rest
      gives the word lower-cased when that is supported, and the fallback
      when it is not. */
  lemma WordLocale(locale: string, w: string, sep: char, rest: string, lower: string)
    requires locale == w + [sep] + rest && '_' !in w && '-' !in w && (sep == '_' || sep == '-')
    requires ToLower(w) == lower
    ensures ExtractLanguageCode(Some(locale)) == if lower in SUPPORTED_LANGUAGES then lower else FALLBACK_LANGUAGE
  {
    LanguageCodeOfWord(w, sep, rest);
  }

  /** Worked cases: region and script suffixes are dropped, upper case is
      folded, and an unsupported language falls back. */
  lemma Examples()
    ensures ExtractLanguageCode(Some("vi_VN")) == "vi"
    ensures ExtractLanguageCode(Some("en-US")) == "en"
    ensures ExtractLanguageCode(Some("ZH-Hans_CN")) == "zh"
    ensures ExtractLanguageCode(Some("fr_FR")) == FALLBACK_LANGUAGE
  {
    ExampleRegion();
    ExampleTag();
    ExampleUpperCase();
    ExampleUnsupported();
  }

  lemma ExampleRegion()
    ensures ExtractLanguageCode(Some("vi_VN")) == "vi"
  {
    WordLocale("vi_VN", "vi", '_', "VN", "vi");
  }

  lemma ExampleTag()
    ensures ExtractLanguageCode(Some("en-US")) == "en"
  {
    WordLocale("en-US", "en", '-', "US", "en");
  }

  lemma ExampleUpperCase()
    ensures ExtractLanguageCode(Some("ZH-Hans_CN")) == "zh"
  {
    WordLocale("ZH-Hans_CN", "ZH", '-', "Hans_CN", "zh");
  }

  lemma ExampleUnsupported()
    ensures ExtractLanguageCode(Some("fr_FR")) == FALLBACK_LANGUAGE
  {
    WordLocale("fr_FR", "fr", '_', "FR", "fr");
    assert "fr"[0] == 'f' && "fr" !in SUPPORTED_LANGUAGES;
  }
}
