/** The `ThemeProvider` of `hooks/useTheme.tsx`: a theme preference of
    light, dark or system, the colour mode it resolves to under the
    system scheme, the palette for that mode, and the preference's
    round trip through AsyncStorage under the key "theme-preference".

    The stored preference is a field; a read of it either succeeds or
    fails, as a parameter. `nativeScheme` is what NativeWind's
    `setColorScheme` last received. The save effect runs whenever the
    preference or the loaded flag changes; the model runs it at the end
    of each action. */
module ColorModeProvider {
  import opened Wrappers
  import opened ThemeModes

  const STORAGE_KEY := "theme-preference"

  /** `ThemeType`: a fixed mode, or whatever the system reports. */
  datatype ThemeType = Fixed(mode: Mode) | System

  /** The preference a provider starts with. */
  const INITIAL_THEME: ThemeType := System

  /** `lightPalette` and `darkPalette`. */
  datatype Palette = LightPalette | DarkPalette

  /** `colorMode`: "system" resolves to dark exactly when the system
      scheme is dark, and a fixed mode is used as it is. */
  function ColorMode(theme: ThemeType, systemColorScheme: Option<Mode>): (r: Mode)
    ensures theme == System ==> (r == Dark <==> systemColorScheme == Some(Dark))
    ensures theme.Fixed? ==> r == theme.mode
  {
    if theme == System then (if systemColorScheme == Some(Dark) then Dark else Light)
    else theme.mode
  }

  /** `isDarkMode` and `colors`: the dark palette exactly in dark mode. */
  function Colors(theme: ThemeType, systemColorScheme: Option<Mode>): (p: Palette)
    ensures p == DarkPalette <==> ColorMode(theme, systemColorScheme) == Dark
  {
    var isDarkMode := ColorMode(theme, systemColorScheme) == Dark;
    if isDarkMode then DarkPalette else LightPalette
  }

  /** The preference a bare toggle moves to from `theme`. */
  function NextTheme(theme: ThemeType): ThemeType {
    if theme == Fixed(Light) then Fixed(Dark) else Fixed(Light)
  }

  /** `toggleTheme(newTheme)` as written: the callback is created once with
      an empty dependency list, so a bare toggle reads the preference of
      the first render, which is always "system", whatever the current
      preference is. */
  function ToggleAsWritten(current: ThemeType, newTheme: Option<ThemeType>): ThemeType {
    match newTheme
    case Some(t) => t
    case None => NextTheme(INITIAL_THEME)
  }

  /** As written, a bare toggle always chooses light, so from light it
      does not change the preference at all. */
  lemma ToggleAsWrittenIgnoresCurrent(current: ThemeType)
    ensures ToggleAsWritten(current, None) == Fixed(Light)
    ensures ToggleAsWritten(Fixed(Light), None) == Fixed(Light)
  {
  }

  /** `toggleTheme(newTheme)` reading the current preference: an explicit
      argument is adopted; a bare toggle goes from light to dark and from
      anything else to light. */
  function Toggle(current: ThemeType, newTheme: Option<ThemeType>): (r: ThemeType)
    ensures newTheme.Some? ==> r == newTheme.value
    ensures newTheme.None? ==> r.Fixed? && (r == Fixed(Dark) <==> current == Fixed(Light))
  {
    match newTheme
    case Some(t) => t
    case None => NextTheme(current)
  }

  /** A bare toggle of a fixed preference flips the colour mode, whatever
      the system reports, and a second one restores it. */
  lemma ToggleFlipsFixed(m: Mode, systemColorScheme: Option<Mode>)
    ensures ColorMode(Toggle(Fixed(m), None), systemColorScheme) == Flip(m)
    ensures Toggle(Toggle(Fixed(m), None), None) == Fixed(m)
  {
  }

  class Provider {
    var theme: ThemeType
    var isLoaded: bool
    var systemColorScheme: Option<Mode>
    /** The value stored under `STORAGE_KEY`. */
    var saved: Option<ThemeType>
    var nativeScheme: Option<ThemeType>

    /** Once loaded, the store and NativeWind hold the current preference. */
    predicate Valid()
      reads this
    {
      isLoaded ==> saved == Some(theme) && nativeScheme == Some(theme)
    }

    constructor (saved: Option<ThemeType>, systemColorScheme: Option<Mode>)
      ensures Valid() && !isLoaded && theme == INITIAL_THEME
      ensures this.saved == saved && this.systemColorScheme == systemColorScheme && nativeScheme == None
    {
      theme := INITIAL_THEME;
      isLoaded := false;
      this.saved := saved;
      this.systemColorScheme := systemColorScheme;
      nativeScheme := None;
    }

    /** The save effect: nothing is written before the preference is loaded. */
    method SaveEffect()
      modifies this`saved, this`nativeScheme
      ensures Valid()
      ensures !isLoaded ==> saved == old(saved) && nativeScheme == old(nativeScheme)
    {
      if isLoaded {
        nativeScheme := Some(theme);
        saved := Some(theme);
      }
    }

    /** The load effect: a stored preference is adopted, and the provider
        counts as loaded whether or not the read fails. */
    method Load(readFails: bool)
      modifies this
      ensures Valid() && isLoaded && systemColorScheme == old(systemColorScheme)
      ensures !readFails && old(saved).Some? ==> theme == old(saved).value
      ensures readFails || old(saved).None? ==> theme == old(theme)
      ensures saved == Some(theme)
    {
      if !readFails {
        var savedTheme := saved;
        if savedTheme.Some? {
          theme := savedTheme.value;
          nativeScheme := savedTheme;
        }
      }
      isLoaded := true;
      SaveEffect();
    }

    /** `setTheme(t)`; persisted only once loaded. */
    method SetTheme(t: ThemeType)
      modifies this
      ensures Valid() && theme == t && isLoaded == old(isLoaded)
      ensures !isLoaded ==> saved == old(saved)
    {
      theme := t;
      SaveEffect();
    }

    /** `toggleTheme`, reading the current preference. */
    method ToggleTheme(newTheme: Option<ThemeType>)
      modifies this
      ensures Valid() && theme == Toggle(old(theme), newTheme) && isLoaded == old(isLoaded)
      ensures !isLoaded ==> saved == old(saved)
    {
      if newTheme.None? {
        var nextTheme := if theme == Fixed(Light) then Fixed(Dark) else Fixed(Light);
        theme := nextTheme;
        SaveEffect();
        return;
      }
      theme := newTheme.value;
      SaveEffect();
    }

    method OnSystemSchemeChange(scheme: Option<Mode>)
      modifies this`systemColorScheme
      ensures systemColorScheme == scheme
    {
      systemColorScheme := scheme;
    }

    /** The colour mode and palette the context hands down. */
    function ColorModeNow(): (r: (Mode, Palette))
      reads this
      ensures r.1 == DarkPalette <==> r.0 == Dark
      ensures r.0 == ColorMode(theme, systemColorScheme)
    {
      (ColorMode(theme, systemColorScheme), Colors(theme, systemColorScheme))
    }
  }
}
