/** The earlier AsyncStorage helper of `utils/storage.ts`: typed settings
    with defaults and a string encoding for booleans, plus untyped JSON
    items, all over one persistent map from keys to strings. */
module SimpleStorage {
  import opened Wrappers
  import AppStorage

  type Value = AppStorage.Value
  type Flag = AppStorage.Flag

  const LANGUAGE_KEY := "language"
  const THEME_KEY := "theme"
  const DEFAULT_LANGUAGE := "en"
  const DEFAULT_THEME := "system"

  /** The setting under `key`, or `default` when nothing is stored (`?? default`). */
  function StoredOr(store: map<string, string>, key: string, default: string): (r: string)
    ensures key in store ==> r == store[key]
    ensures key !in store ==> r == default
  {
    if key in store then store[key] else default
  }

  /** A boolean setting reads true exactly when the stored string is "true". */
  function FlagIn(store: map<string, string>, f: Flag): (r: bool)
    ensures r <==> AppStorage.FlagKey(f) in store && store[AppStorage.FlagKey(f)] == "true"
    ensures AppStorage.FlagKey(f) !in store ==> !r
  {
    StoredOr(store, AppStorage.FlagKey(f), "") == "true"
  }

  /** `getItem(key)`: null for an absent or empty entry, otherwise what
      `JSON.parse` makes of it; a parse error rejects the promise. */
  function ItemIn(store: map<string, string>, parse: string -> Result<Value, string>, key: string): (r: Result<Value, string>)
    ensures key !in store || store[key] == [] ==> r == Success(AppStorage.Null)
    ensures key in store && store[key] != [] ==> r == parse(store[key])
  {
    if key in store && store[key] != [] then parse(store[key]) else Success(AppStorage.Null)
  }

  /** Writing a setting and reading it back yields what was written, and
      leaves the other settings as they were. */
  lemma SettingsRoundTrip(store: map<string, string>, language: string, theme: string, f: Flag, g: Flag, b: bool)
    ensures StoredOr(store[LANGUAGE_KEY := language], LANGUAGE_KEY, DEFAULT_LANGUAGE) == language
    ensures StoredOr(store[THEME_KEY := theme], THEME_KEY, DEFAULT_THEME) == theme
    ensures FlagIn(store[AppStorage.FlagKey(f) := AppStorage.BoolText(b)], f) == b
    ensures f != g ==> FlagIn(store[AppStorage.FlagKey(f) := AppStorage.BoolText(b)], g) == FlagIn(store, g)
    ensures StoredOr(store[THEME_KEY := theme], LANGUAGE_KEY, DEFAULT_LANGUAGE) == StoredOr(store, LANGUAGE_KEY, DEFAULT_LANGUAGE)
  {
    if f != g {
      assert AppStorage.FlagKey(f) != AppStorage.FlagKey(g) by {
        assert AppStorage.FlagKey(f)[1] != AppStorage.FlagKey(g)[1] || |AppStorage.FlagKey(f)| != |AppStorage.FlagKey(g)|;
      }
    }
  }

  /** On an empty store every getter yields its default. */
  lemma ClearedDefaults(parse: string -> Result<Value, string>, f: Flag, key: string)
    ensures StoredOr(map[], LANGUAGE_KEY, DEFAULT_LANGUAGE) == "en"
    ensures StoredOr(map[], THEME_KEY, DEFAULT_THEME) == "system"
    ensures !FlagIn(map[], f)
    ensures ItemIn(map[], parse, key) == Success(AppStorage.Null)
  {
  }

  /** `setItem` then `getItem` yields the value back whenever JSON
      round-trips it to a non-empty text. */
  lemma ItemRoundTrip(store: map<string, string>, parse: string -> Result<Value, string>,
                      stringify: Value -> string, key: string, v: Value)
    requires parse(stringify(v)) == Success(v) && stringify(v) != []
    ensures ItemIn(store[key := stringify(v)], parse, key) == Success(v)
  {
  }

  class Storage {
    var store: map<string, string>
    const parse: string -> Result<Value, string>
    const stringify: Value -> string

    constructor (persisted: map<string, string>, parse: string -> Result<Value, string>, stringify: Value -> string)
      ensures store == persisted && this.parse == parse && this.stringify == stringify
    {
      store := persisted;
      this.parse := parse;
      this.stringify := stringify;
    }

    method SetLanguage(language: string)
      modifies this
      ensures store == old(store)[LANGUAGE_KEY := language]
    {
      store := store[LANGUAGE_KEY := language];
    }

    method GetLanguage() returns (language: string)
      ensures language == StoredOr(store, LANGUAGE_KEY, DEFAULT_LANGUAGE)
    {
      language := if LANGUAGE_KEY in store then store[LANGUAGE_KEY] else DEFAULT_LANGUAGE;
    }

    method SetTheme(theme: string)
      modifies this
      ensures store == old(store)[THEME_KEY := theme]
    {
      store := store[THEME_KEY := theme];
    }

    method GetTheme() returns (theme: string)
      ensures theme == StoredOr(store, THEME_KEY, DEFAULT_THEME)
    {
      theme := if THEME_KEY in store then store[THEME_KEY] else DEFAULT_THEME;
    }

    /** `setFirstLaunch`, `setNotificationsEnabled` and `setBiometricEnabled`. */
    method SetFlag(f: Flag, b: bool)
      modifies this
      ensures store == old(store)[AppStorage.FlagKey(f) := AppStorage.BoolText(b)]
    {
      store := store[AppStorage.FlagKey(f) := AppStorage.BoolText(b)];
    }

    /** `getFirstLaunch`, `getNotificationsEnabled` and `getBiometricEnabled`. */
    method GetFlag(f: Flag) returns (b: bool)
      ensures b == FlagIn(store, f)
    {
      var key := AppStorage.FlagKey(f);
      b := key in store && store[key] == "true";
    }

    method ClearAll()
      modifies this
      ensures store == map[]
    {
      store := map[];
    }

    method GetItem(key: string) returns (r: Result<Value, string>)
      ensures r == ItemIn(store, parse, key)
    {
      if key in store && store[key] != [] {
        r := parse(store[key]);
      } else {
        r := Success(AppStorage.Null);
      }
    }

    method SetItem(key: string, v: Value)
      modifies this
      ensures store == old(store)[key := stringify(v)]
    {
      store := store[key := stringify(v)];
    }
  }
}
