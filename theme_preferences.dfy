/** The theme store of `src/stores/theme.ts`: a chosen theme, the system
    theme last reported by the operating system, and whether the
    effective theme is the system's.

    The scheme `Appearance` reports is a parameter of the actions that
    read it. */
module ThemePreferences {
  import opened Wrappers
  import opened ThemeModes

  datatype State = State(theme: Mode, systemTheme: Mode, useSystemTheme: bool)

  /** `getSystemTheme()` for the reported scheme: dark only when the
      system reports dark. */
  function GetSystemTheme(scheme: Option<Mode>): (r: Mode)
    ensures r == Dark <==> scheme == Some(Dark)
  {
    SystemMode(scheme)
  }

  /** The store as created: light, not following the system. */
  function Initial(scheme: Option<Mode>): (r: State)
    ensures r.theme == Light && !r.useSystemTheme && r.systemTheme == GetSystemTheme(scheme)
  {
    State(Light, GetSystemTheme(scheme), false)
  }

  /** `getEffectiveTheme()`: the system theme while following it, the
      chosen theme otherwise. */
  function EffectiveTheme(s: State): (r: Mode)
    ensures s.useSystemTheme ==> r == s.systemTheme
    ensures !s.useSystemTheme ==> r == s.theme
  {
    if s.useSystemTheme then s.systemTheme else s.theme
  }

  /** `toggleTheme()`: the opposite of what is shown becomes the chosen
      theme, and the system is no longer followed. */
  function ToggleStep(s: State): (r: State)
    ensures !r.useSystemTheme && r.systemTheme == s.systemTheme
    ensures EffectiveTheme(r) == Flip(EffectiveTheme(s))
  {
    var currentTheme := EffectiveTheme(s);
    var newTheme := if currentTheme == Light then Dark else Light;
    s.(theme := newTheme, useSystemTheme := false)
  }

  /** Toggling twice shows what was shown before. */
  lemma ToggleTwice(s: State)
    ensures EffectiveTheme(ToggleStep(ToggleStep(s))) == EffectiveTheme(s)
  {
    FlipTwice(EffectiveTheme(s));
  }

  /** `setTheme(t)`: `t` is chosen and becomes the effective theme. */
  function SetThemeStep(s: State, t: Mode): (r: State)
    ensures r.theme == t && !r.useSystemTheme && r.systemTheme == s.systemTheme
    ensures EffectiveTheme(r) == t
  {
    s.(theme := t, useSystemTheme := false)
  }

  /** `setUseSystemTheme(b)`: the flag is set and the system theme is read afresh. */
  function SetUseSystemThemeStep(s: State, useSystem: bool, scheme: Option<Mode>): (r: State)
    ensures r.useSystemTheme == useSystem && r.theme == s.theme
    ensures r.systemTheme == Dark <==> scheme == Some(Dark)
    ensures useSystem ==> EffectiveTheme(r) == GetSystemTheme(scheme)
    ensures !useSystem ==> EffectiveTheme(r) == s.theme
  {
    s.(useSystemTheme := useSystem, systemTheme := GetSystemTheme(scheme))
  }

  /** The appearance listener: only the system theme is updated. */
  function AppearanceChangeStep(s: State, scheme: Option<Mode>): (r: State)
    ensures r.theme == s.theme && r.useSystemTheme == s.useSystemTheme
    ensures r.systemTheme == Dark <==> scheme == Some(Dark)
  {
    s.(systemTheme := if scheme == Some(Dark) then Dark else Light)
  }

  /** A system change is visible only while the system is followed. */
  lemma AppearanceChangeEffect(s: State, scheme: Option<Mode>)
    ensures !s.useSystemTheme ==> EffectiveTheme(AppearanceChangeStep(s, scheme)) == EffectiveTheme(s)
    ensures s.useSystemTheme ==> EffectiveTheme(AppearanceChangeStep(s, scheme)) == GetSystemTheme(scheme)
  {
  }

  class Store {
    var theme: Mode
    var systemTheme: Mode
    var useSystemTheme: bool

    function Snapshot(): State
      reads this
    {
      State(theme, systemTheme, useSystemTheme)
    }

    constructor (scheme: Option<Mode>)
      ensures Snapshot() == Initial(scheme)
    {
      theme := Light;
      systemTheme := GetSystemTheme(scheme);
      useSystemTheme := false;
    }

    method GetEffectiveTheme() returns (t: Mode)
      ensures t == EffectiveTheme(Snapshot())
    {
      t := if useSystemTheme then systemTheme else theme;
    }

    method ToggleTheme()
      modifies this
      ensures Snapshot() == ToggleStep(old(Snapshot()))
    {
      var currentTheme := GetEffectiveTheme();
      var newTheme := if currentTheme == Light then Dark else Light;
      theme := newTheme;
      useSystemTheme := false;
    }

    method SetTheme(t: Mode)
      modifies this
      ensures Snapshot() == SetThemeStep(old(Snapshot()), t)
    {
      theme := t;
      useSystemTheme := false;
    }

    method SetUseSystemTheme(useSystem: bool, scheme: Option<Mode>)
      modifies this
      ensures Snapshot() == SetUseSystemThemeStep(old(Snapshot()), useSystem, scheme)
    {
      useSystemTheme := useSystem;
      systemTheme := GetSystemTheme(scheme);
    }

    method OnAppearanceChange(scheme: Option<Mode>)
      modifies this
      ensures Snapshot() == AppearanceChangeStep(old(Snapshot()), scheme)
    {
      systemTheme := if scheme == Some(Dark) then Dark else Light;
    }
  }
}
