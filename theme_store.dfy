/** The persisted theme store of `src/theme/stores/useThemeStore.ts`: the
    current mode, whether it follows the system scheme, the mode to use
    otherwise, and the theme object derived from the mode.

    The system scheme every action reads is a parameter. Each action is a
    step function on `State`; the `ThemeStore` class runs the steps on its
    fields and keeps the theme in step with the mode. */
module ThemeStore {
  import opened Wrappers
  import opened ThemeModes

  datatype State = State(mode: Mode, followSystemTheme: bool, defaultMode: Mode, theme: Theme)

  /** A `Partial<ThemeConfig>`: a field left out (or given as `undefined`)
      is None. A field given as `null` is not modelled. */
  datatype Config = Config(followSystemTheme: Option<bool>, defaultMode: Option<Mode>)

  /** What `partialize` hands to the persistence layer. */
  datatype Persisted = Persisted(mode: Mode, followSystemTheme: bool, defaultMode: Mode)

  /** The theme object is the one `createTheme` builds for the mode. */
  predicate InStep(s: State) {
    s.theme == CreateTheme(s.mode)
  }

  /** `getInitialMode`: following the system, dark exactly when the system
      scheme is dark (a missing scheme reads as light); otherwise the
      default mode. */
  function GetInitialMode(followSystemTheme: bool, defaultMode: Mode, system: Option<Mode>): (r: Mode)
    ensures followSystemTheme ==> (r == Dark <==> system == Some(Dark))
    ensures !followSystemTheme ==> r == defaultMode
  {
    if followSystemTheme then SystemMode(system) else defaultMode
  }

  /** The store as created: following the system, with light as the default. */
  function Initial(system: Option<Mode>): (r: State)
    ensures InStep(r) && r.followSystemTheme && r.defaultMode == Light
    ensures r.mode == Dark <==> system == Some(Dark)
  {
    State(GetInitialMode(true, Light, system), true, Light, CreateTheme(GetInitialMode(true, Light, system)))
  }

  /** `setMode(mode)`. */
  function SetModeStep(s: State, mode: Mode): (r: State)
    ensures InStep(r) && r.mode == mode
    ensures r.followSystemTheme == s.followSystemTheme && r.defaultMode == s.defaultMode
  {
    s.(mode := mode, theme := CreateTheme(mode))
  }

  /** `toggleMode()`: the mode flips and nothing in the configuration changes. */
  function ToggleModeStep(s: State): (r: State)
    ensures InStep(r) && r.mode != s.mode
    ensures r.followSystemTheme == s.followSystemTheme && r.defaultMode == s.defaultMode
  {
    var newMode := if s.mode == Light then Dark else Light;
    s.(mode := newMode, theme := CreateTheme(newMode))
  }

  /** Toggling twice gives back the state toggled from. */
  lemma ToggleTwice(s: State)
    requires InStep(s)
    ensures ToggleModeStep(ToggleModeStep(s)) == s
  {
  }

  /** `resetMode()`: back to the mode a store with this configuration starts in. */
  function ResetModeStep(s: State, system: Option<Mode>): (r: State)
    ensures InStep(r) && r.mode == GetInitialMode(s.followSystemTheme, s.defaultMode, system)
    ensures r.followSystemTheme == s.followSystemTheme && r.defaultMode == s.defaultMode
  {
    var resetMode := if s.followSystemTheme then GetInitialMode(s.followSystemTheme, s.defaultMode, system)
                     else s.defaultMode;
    s.(mode := resetMode, theme := CreateTheme(resetMode))
  }

  /** `setConfig(config)`: the given fields replace the stored ones, and the
      mode is recomputed from the new configuration only when at least one
      field was given. */
  function SetConfigStep(s: State, config: Config, system: Option<Mode>): (r: State)
    ensures InStep(r)
    ensures r.followSystemTheme == config.followSystemTheme.GetOr(s.followSystemTheme)
    ensures r.defaultMode == config.defaultMode.GetOr(s.defaultMode)
    ensures config == Config(None, None) ==> r.mode == s.mode
    ensures config != Config(None, None) ==> r.mode == GetInitialMode(r.followSystemTheme, r.defaultMode, system)
  {
    var newFollowSystemTheme := config.followSystemTheme.GetOr(s.followSystemTheme);
    var newDefaultMode := config.defaultMode.GetOr(s.defaultMode);
    var newMode :=
      if config.followSystemTheme.Some? || config.defaultMode.Some?
      then GetInitialMode(newFollowSystemTheme, newDefaultMode, system)
      else s.mode;
    State(newMode, newFollowSystemTheme, newDefaultMode, CreateTheme(newMode))
  }

  /** `setConfig({})` changes nothing. */
  lemma EmptyConfigKeepsState(s: State, system: Option<Mode>)
    requires InStep(s)
    ensures SetConfigStep(s, Config(None, None), system) == s
  {
  }

  /** After a non-empty `setConfig` the store is already in the mode
      `resetMode` would choose. */
  lemma ConfigThenReset(s: State, config: Config, system: Option<Mode>)
    requires config != Config(None, None)
    ensures ResetModeStep(SetConfigStep(s, config, system), system) == SetConfigStep(s, config, system)
  {
  }

  /** `updateTheme()`: following the system, the mode becomes the system's
      (a missing scheme reads as light); otherwise nothing changes. */
  function UpdateThemeStep(s: State, system: Option<Mode>): (r: State)
    ensures !s.followSystemTheme ==> r == s
    ensures s.followSystemTheme ==> r.mode == SystemMode(system)
    ensures r.followSystemTheme == s.followSystemTheme && r.defaultMode == s.defaultMode
    ensures InStep(s) ==> InStep(r)
  {
    if s.followSystemTheme && SystemMode(system) != s.mode then
      s.(mode := SystemMode(system), theme := CreateTheme(SystemMode(system)))
    else s
  }

  /** A second update with the same system scheme changes nothing. */
  lemma UpdateThemeIdempotent(s: State, system: Option<Mode>)
    ensures UpdateThemeStep(UpdateThemeStep(s, system), system) == UpdateThemeStep(s, system)
  {
  }

  /** The change listener of `useSystemThemeTracking`: unlike `updateTheme`,
      a change that reports no scheme is ignored. */
  function AppearanceChangeStep(s: State, colorScheme: Option<Mode>): (r: State)
    ensures !s.followSystemTheme || colorScheme.None? ==> r == s
    ensures s.followSystemTheme && colorScheme.Some? ==> r.mode == colorScheme.value
    ensures r.followSystemTheme == s.followSystemTheme && r.defaultMode == s.defaultMode
    ensures InStep(s) ==> InStep(r)
  {
    if s.followSystemTheme && colorScheme.Some? then
      var systemMode := if colorScheme.value == Dark then Dark else Light;
      if systemMode != s.mode then s.(mode := systemMode, theme := CreateTheme(systemMode)) else s
    else s
  }

  /** When a scheme is reported, the listener and `updateTheme` agree. */
  lemma ListenerAgreesWithUpdate(s: State, colorScheme: Mode)
    ensures AppearanceChangeStep(s, Some(colorScheme)) == UpdateThemeStep(s, Some(colorScheme))
  {
  }

  /** `partialize`: the mode and the configuration, but not the theme object. */
  function Partialize(s: State): (p: Persisted)
    ensures p.mode == s.mode && p.followSystemTheme == s.followSystemTheme && p.defaultMode == s.defaultMode
  {
    Persisted(s.mode, s.followSystemTheme, s.defaultMode)
  }

  /** Rehydration with the persistence layer's default shallow merge: the
      persisted fields overwrite the current ones and the theme object
      built at start-up is kept. */
  function RehydrateAsWritten(current: State, p: Persisted): State {
    State(p.mode, p.followSystemTheme, p.defaultMode, current.theme)
  }

  /** A store started under a light system scheme that rehydrates a dark
      mode it does not follow from the system ends up with a light theme
      under a dark mode. */
  lemma RehydrateAsWrittenBreaksInStep()
    ensures var s := RehydrateAsWritten(Initial(Some(Light)), Persisted(Dark, false, Dark));
            s.mode == Dark && s.theme.colors == LightColors && !InStep(s)
  {
  }

  /** Rehydration that rebuilds the theme from the restored mode. */
  function Rehydrate(p: Persisted): (r: State)
    ensures InStep(r) && Partialize(r) == p
  {
    State(p.mode, p.followSystemTheme, p.defaultMode, CreateTheme(p.mode))
  }

  /** Persisting and restoring a store in step gives the same store back. */
  lemma PartializeRehydrate(s: State)
    requires InStep(s)
    ensures Rehydrate(Partialize(s)) == s
  {
  }

  class Store {
    var mode: Mode
    var followSystemTheme: bool
    var defaultMode: Mode
    var theme: Theme

    function Snapshot(): State
      reads this
    {
      State(mode, followSystemTheme, defaultMode, theme)
    }

    /** The store's invariant: the theme object matches the mode. */
    predicate Valid()
      reads this
    {
      InStep(Snapshot())
    }

    constructor (system: Option<Mode>)
      ensures Valid() && Snapshot() == Initial(system)
    {
      mode := GetInitialMode(true, Light, system);
      followSystemTheme := true;
      defaultMode := Light;
      theme := CreateTheme(GetInitialMode(true, Light, system));
    }

    method SetMode(newMode: Mode)
      modifies this
      ensures Valid() && Snapshot() == SetModeStep(old(Snapshot()), newMode)
    {
      theme := CreateTheme(newMode);
      mode := newMode;
    }

    method ToggleMode()
      modifies this
      ensures Valid() && Snapshot() == ToggleModeStep(old(Snapshot()))
    {
      var currentMode := mode;
      var newMode := if currentMode == Light then Dark else Light;
      theme := CreateTheme(newMode);
      mode := newMode;
    }

    method ResetMode(system: Option<Mode>)
      modifies this
      ensures Valid() && Snapshot() == ResetModeStep(old(Snapshot()), system)
    {
      var resetMode := if followSystemTheme then GetInitialMode(followSystemTheme, defaultMode, system) else defaultMode;
      theme := CreateTheme(resetMode);
      mode := resetMode;
    }

    method SetConfig(config: Config, system: Option<Mode>)
      modifies this
      ensures Valid() && Snapshot() == SetConfigStep(old(Snapshot()), config, system)
    {
      var newFollowSystemTheme := config.followSystemTheme.GetOr(followSystemTheme);
      var newDefaultMode := config.defaultMode.GetOr(defaultMode);
      var newMode := mode;
      if config.followSystemTheme.Some? || config.defaultMode.Some? {
        newMode := GetInitialMode(newFollowSystemTheme, newDefaultMode, system);
      }
      followSystemTheme := newFollowSystemTheme;
      defaultMode := newDefaultMode;
      mode := newMode;
      theme := CreateTheme(newMode);
    }

    method UpdateTheme(system: Option<Mode>)
      requires Valid()
      modifies this
      ensures Valid() && Snapshot() == UpdateThemeStep(old(Snapshot()), system)
    {
      if followSystemTheme {
        var systemMode := SystemMode(system);
        if systemMode != mode {
          theme := CreateTheme(systemMode);
          mode := systemMode;
        }
      }
    }

    method OnAppearanceChange(colorScheme: Option<Mode>)
      requires Valid()
      modifies this
      ensures Valid() && Snapshot() == AppearanceChangeStep(old(Snapshot()), colorScheme)
    {
      if followSystemTheme && colorScheme.Some? {
        var systemMode := if colorScheme.value == Dark then Dark else Light;
        if systemMode != mode {
          theme := CreateTheme(systemMode);
          mode := systemMode;
        }
      }
    }

    /** Restores a persisted store, rebuilding the theme from the mode. */
    method Rehydrate(p: Persisted)
      modifies this
      ensures Valid() && Partialize(Snapshot()) == p
    {
      mode := p.mode;
      followSystemTheme := p.followSystemTheme;
      defaultMode := p.defaultMode;
      theme := CreateTheme(p.mode);
    }
  }
}
