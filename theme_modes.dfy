/** Light and dark modes, the operating system's colour scheme and the
    theme object derived from a mode, shared by the app's theme stores and
    providers.

    The system scheme is what `Appearance.getColorScheme()` or
    `useColorScheme()` reports: light, dark or nothing (null). A theme
    object carries its mode and its colour scheme; the typography,
    spacing, radius, shadow and opacity tables it also holds are the same
    constants for both modes and are not modelled. */
module ThemeModes {
  import opened Wrappers

  datatype Mode = Light | Dark

  /** The colour tables `lightColorScheme` and `darkColorScheme`. */
  datatype Palette = LightColors | DarkColors

  datatype Theme = Theme(mode: Mode, colors: Palette)

  /** `currentMode === "light" ? "dark" : "light"`. */
  function Flip(m: Mode): (r: Mode)
    ensures r != m
  {
    if m == Light then Dark else Light
  }

  lemma FlipTwice(m: Mode)
    ensures Flip(Flip(m)) == m
  {
  }

  /** `colorScheme === "dark" ? "dark" : "light"`: a missing scheme reads as light. */
  function SystemMode(scheme: Option<Mode>): (r: Mode)
    ensures r == Dark <==> scheme == Some(Dark)
  {
    if scheme == Some(Dark) then Dark else Light
  }

  /** `createTheme(mode)`: the theme has the given mode, and uses the dark
      colour scheme exactly when the mode is dark. */
  function CreateTheme(mode: Mode): (r: Theme)
    ensures r.mode == mode
    ensures r.colors == DarkColors <==> mode == Dark
  {
    Theme(mode, if mode == Dark then DarkColors else LightColors)
  }

  /** Two modes give the same theme only when they are the same mode. */
  lemma CreateThemeInjective(a: Mode, b: Mode)
    ensures CreateTheme(a) == CreateTheme(b) <==> a == b
  {
  }
}
