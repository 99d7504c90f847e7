/** The mode state of the `ThemeProvider` in
    `src/theme/contexts/ThemeContext.tsx`. The provider's `defaultMode`
    and `followSystemTheme` props are fixed for its lifetime; the scheme
    `useColorScheme()` reports is held in `systemColorScheme` and changes
    when the operating system reports a new one. The theme object is
    derived from the mode on every render. */
module ThemeContext {
  import opened Wrappers
  import opened ThemeModes
  import ThemeStore

  /** The mode the provider starts in and `resetMode` returns to: the
      reported scheme when following it and one is reported, otherwise the
      default mode. */
  function InitialMode(followSystemTheme: bool, systemColorScheme: Option<Mode>, defaultMode: Mode): (r: Mode)
    ensures followSystemTheme && systemColorScheme.Some? ==> r == systemColorScheme.value
    ensures !followSystemTheme || systemColorScheme.None? ==> r == defaultMode
  {
    if followSystemTheme && systemColorScheme.Some? then systemColorScheme.value else defaultMode
  }

  /** Where this provider and the persisted store of
      `src/theme/stores/useThemeStore.ts` differ: with a scheme reported
      they choose the same mode, but with none reported the provider falls
      back to its default mode while the store falls back to light. */
  lemma InitialModeVersusStore(followSystemTheme: bool, systemColorScheme: Option<Mode>, defaultMode: Mode)
    ensures systemColorScheme.Some? ==>
      InitialMode(followSystemTheme, systemColorScheme, defaultMode)
        == ThemeStore.GetInitialMode(followSystemTheme, defaultMode, systemColorScheme)
    ensures followSystemTheme && systemColorScheme.None? ==>
      InitialMode(followSystemTheme, systemColorScheme, defaultMode) == defaultMode &&
      ThemeStore.GetInitialMode(followSystemTheme, defaultMode, systemColorScheme) == Light
  {
  }

  /** The context value apart from its callbacks. */
  datatype ContextValue = ContextValue(theme: Theme, mode: Mode, isDark: bool)

  /** The value the provider hands down for a mode: dark exactly when the
      mode is dark, with the dark colours exactly then. */
  function ValueFor(mode: Mode): (v: ContextValue)
    ensures v.mode == mode && v.theme.mode == mode
    ensures v.isDark <==> mode == Dark
    ensures v.theme.colors == DarkColors <==> v.isDark
  {
    ContextValue(CreateTheme(mode), mode, mode == Dark)
  }

  class Provider {
    const defaultMode: Mode
    const followSystemTheme: bool
    var systemColorScheme: Option<Mode>
    var mode: Mode

    constructor (defaultMode: Mode, followSystemTheme: bool, systemColorScheme: Option<Mode>)
      ensures this.defaultMode == defaultMode && this.followSystemTheme == followSystemTheme
      ensures this.systemColorScheme == systemColorScheme
      ensures mode == InitialMode(followSystemTheme, systemColorScheme, defaultMode)
    {
      this.defaultMode := defaultMode;
      this.followSystemTheme := followSystemTheme;
      this.systemColorScheme := systemColorScheme;
      mode := if followSystemTheme && systemColorScheme.Some? then systemColorScheme.value else defaultMode;
    }

    function Value(): (v: ContextValue)
      reads this
      ensures v == ValueFor(mode)
    {
      ContextValue(CreateTheme(mode), mode, mode == Dark)
    }

    method SetMode(newMode: Mode)
      modifies this`mode
      ensures mode == newMode
    {
      mode := newMode;
    }

    method ToggleMode()
      modifies this`mode
      ensures mode == Flip(old(mode))
    {
      mode := if mode == Light then Dark else Light;
    }

    method ResetMode()
      modifies this`mode
      ensures mode == InitialMode(followSystemTheme, systemColorScheme, defaultMode)
    {
      mode := if followSystemTheme && systemColorScheme.Some? then systemColorScheme.value else defaultMode;
    }

    /** The system reports a new scheme: both the effect on
        `systemColorScheme` and the change listener adopt it while
        following the system, and a null report leaves the mode alone. */
    method OnSystemSchemeChange(scheme: Option<Mode>)
      modifies this
      ensures systemColorScheme == scheme
      ensures followSystemTheme && scheme.Some? ==> mode == scheme.value
      ensures !followSystemTheme || scheme.None? ==> mode == old(mode)
    {
      systemColorScheme := scheme;
      if followSystemTheme && scheme.Some? {
        mode := scheme.value;
      }
    }
  }
}
