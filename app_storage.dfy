/** The AsyncStorage layer of `src/utils/storage.ts`: key validation, a
    bounded insertion-order cache in front of the persistent store, hit and
    miss counters, typed accessors for the app's fixed keys, and prefixed
    storage managers.

    The persistent store is a map from keys to serialised strings. JSON is
    a pair of functions fixed when the storage is created: `stringify`
    serialises a value and `parse` either yields a value or fails with the
    message `JSON.parse` would throw. Each operation is specified by a
    function from the state before the call to the state after it and the
    result, and the `Storage` class runs these steps on its fields. */
module AppStorage {
  import opened Wrappers
  import opened Strings
  import opened OrderedMap

  const MAX_CACHE_SIZE: int := 100
  const MAX_KEY_LENGTH: int := 100

  const KEY_MISSING := "Key must be a non-empty string"
  const KEY_BLANK := "Key cannot be empty"
  const KEY_TOO_LONG := "Key is too long (max 100 characters)"
  const LANGUAGE_EMPTY := "Language must be a non-empty string"
  const VALUE_UNDEFINED := "Value cannot be undefined"

  const LANGUAGE_KEY := "language"
  const DEFAULT_LANGUAGE := "en"

  /** The JavaScript values the storage distinguishes; every other JSON
      value is kept opaque. */
  datatype Value = Undefined | Null | Bool(b: bool) | Str(s: string) | Structured(json: string)

  /** The boolean settings with their own accessors. */
  datatype Flag = FirstLaunch | NotificationsEnabled | BiometricEnabled

  function FlagKey(f: Flag): string {
    match f
    case FirstLaunch => "isFirstLaunch"
    case NotificationsEnabled => "notificationsEnabled"
    case BiometricEnabled => "biometricEnabled"
  }

  /** `String(b)`. */
  function BoolText(b: bool): string {
    if b then "true" else "false"
  }

  datatype Options = Options(enableCache: bool, cacheSize: int, enableCompression: bool, enableDebugLogs: bool)

  /** A `Partial<StorageOptions>`: a field left out is None. */
  datatype OptionsPatch = OptionsPatch(
    enableCache: Option<bool>, cacheSize: Option<int>,
    enableCompression: Option<bool>, enableDebugLogs: Option<bool>)

  /** `defaultOptions`; `enableDebugLogs` follows the build's `__DEV__` flag. */
  function DefaultOptions(dev: bool): Options {
    Options(true, MAX_CACHE_SIZE, false, dev)
  }

  /** `{ ...defaults, ...patch }`. */
  function Spread(defaults: Options, patch: OptionsPatch): Options {
    Options(patch.enableCache.GetOr(defaults.enableCache), patch.cacheSize.GetOr(defaults.cacheSize),
            patch.enableCompression.GetOr(defaults.enableCompression),
            patch.enableDebugLogs.GetOr(defaults.enableDebugLogs))
  }

  /** `validateKey`: a key is accepted exactly when it is non-empty, not
      made only of white space, and at most 100 UTF-16 code units long;
      each rejection carries its own message. */
  function ValidateKey(key: string): (r: Outcome<string>)
    ensures r == Pass <==> key != [] && !AllWhitespace(key) && Utf16Length(key) <= MAX_KEY_LENGTH
    ensures key == [] ==> r == Fail(KEY_MISSING)
    ensures key != [] && AllWhitespace(key) ==> r == Fail(KEY_BLANK)
    ensures key != [] && !AllWhitespace(key) && Utf16Length(key) > MAX_KEY_LENGTH ==> r == Fail(KEY_TOO_LONG)
  {
    TrimEmptyIffBlank(key);
    if key == [] then Fail(KEY_MISSING)
    else if |Trim(key)| == 0 then Fail(KEY_BLANK)
    else if Utf16Length(key) > MAX_KEY_LENGTH then Fail(KEY_TOO_LONG)
    else Pass
  }

  /** The fixed keys of the typed accessors always pass validation, so
      their validation branch is never taken. */
  lemma FixedKeysValid(f: Flag)
    ensures ValidateKey(LANGUAGE_KEY) == Pass
    ensures ValidateKey(FlagKey(f)) == Pass
  {
    assert !IsWhitespace(LANGUAGE_KEY[0]);
    assert !IsWhitespace(FlagKey(f)[0]);
    Utf16LengthBounds(LANGUAGE_KEY);
    Utf16LengthBounds(FlagKey(f));
  }

  /** The limit counts UTF-16 code units: 51 emoji are 102 units, so the
      key is too long although it has only 51 characters. */
  lemma AstralKeyTooLong()
    ensures ValidateKey(seq(51, i => '\U{1F600}')) == Fail(KEY_TOO_LONG)
  {
    var key := seq(51, i => '\U{1F600}');
    Utf16PrefixAstral(key, |key|);
    assert !IsWhitespace(key[0]);
  }

  /** Everything the module keeps between calls. */
  datatype State = State(
    store: map<string, string>,
    cache: seq<(string, Value)>,
    hits: nat,
    misses: nat,
    options: Options)

  /** `storageCache.has(key)` consulted with the cache enabled. */
  predicate CacheHit(s: State, key: string) {
    s.options.enableCache && Has(s.cache, key)
  }

  /** The cache after `manageCacheSize(); storageCache.set(key, v)` when the
      cache is enabled; a disabled cache is left alone. */
  function CachePut(cache: seq<(string, Value)>, o: Options, key: string, v: Value): seq<(string, Value)> {
    if o.enableCache then Set(EvictOldest(cache, o.cacheSize), key, v) else cache
  }

  /** The cache never holds more than `cacheSize` entries (for a positive size). */
  predicate CacheWithinBound(s: State) {
    s.options.cacheSize >= 1 ==> |s.cache| <= s.options.cacheSize
  }

  /** Inserting through the cache keeps it within its bound and its keys
      distinct, and the inserted key then reads back the inserted value. */
  lemma CachePutProps(s: State, key: string, v: Value)
    ensures CacheWithinBound(s) ==> CacheWithinBound(s.(cache := CachePut(s.cache, s.options, key, v)))
    ensures NoDuplicateKeys(s.cache) ==> NoDuplicateKeys(CachePut(s.cache, s.options, key, v))
    ensures s.options.enableCache ==> Lookup(CachePut(s.cache, s.options, key, v), key) == Some(v)
  {
    if NoDuplicateKeys(s.cache) {
      EvictOldestLookup(s.cache, s.options.cacheSize, key);
    }
  }

  /** `getItem(key)`. */
  function GetItemStep(s: State, parse: string -> Result<Value, string>, key: string): (r: (State, Result<Value, string>))
    ensures ValidateKey(key).Fail? ==> r == (s, Failure(ValidateKey(key).error))
    ensures ValidateKey(key) == Pass && CacheHit(s, key) ==>
      r == (s.(hits := s.hits + 1), Success(Lookup(s.cache, key).value))
    ensures ValidateKey(key) == Pass && !CacheHit(s, key) ==>
      r.0.store == s.store && r.0.options == s.options && r.0.hits == s.hits && r.0.misses == s.misses + 1
    ensures ValidateKey(key) == Pass && !CacheHit(s, key) && (key !in s.store || s.store[key] == []) ==>
      r == (s.(misses := s.misses + 1), Success(Null))
    ensures r.1 == Success(Null) ==> r.0.cache == s.cache
  {
    if ValidateKey(key).Fail? then (s, Failure(ValidateKey(key).error))
    else if CacheHit(s, key) then (s.(hits := s.hits + 1), Success(Lookup(s.cache, key).value))
    else
      var s1 := s.(misses := s.misses + 1);
      if key !in s.store || s.store[key] == [] then (s1, Success(Null))
      else
        match parse(s.store[key])
        case Failure(e) => (s1, Failure(e))
        case Success(v) => (if v == Null then s1 else s1.(cache := CachePut(s.cache, s.options, key, v)), Success(v))
  }

  /** `setItem(key, value)`. */
  function SetItemStep(s: State, stringify: Value -> string, key: string, v: Value): (r: (State, Outcome<string>))
    ensures ValidateKey(key).Fail? ==> r == (s, ValidateKey(key))
    ensures ValidateKey(key) == Pass && v == Undefined ==> r == (s, Fail(VALUE_UNDEFINED))
    ensures r.1 == Pass <==> ValidateKey(key) == Pass && v != Undefined
    ensures r.1 == Pass ==> r.0.store == s.store[key := stringify(v)]
    ensures r.0.hits == s.hits && r.0.misses == s.misses && r.0.options == s.options
  {
    if ValidateKey(key).Fail? then (s, ValidateKey(key))
    else if v == Undefined then (s, Fail(VALUE_UNDEFINED))
    else (s.(store := s.store[key := stringify(v)], cache := CachePut(s.cache, s.options, key, v)), Pass)
  }

  /** `removeItem(key)`. */
  function RemoveItemStep(s: State, key: string): (r: (State, Outcome<string>))
    ensures ValidateKey(key).Fail? ==> r == (s, ValidateKey(key))
    ensures ValidateKey(key) == Pass ==> r.1 == Pass && key !in r.0.store && !CacheHit(r.0, key)
    ensures forall k | k != key :: (k in r.0.store <==> k in s.store) && Lookup(r.0.cache, k) == Lookup(s.cache, k)
    ensures r.0.hits == s.hits && r.0.misses == s.misses && r.0.options == s.options
  {
    if ValidateKey(key).Fail? then (s, ValidateKey(key))
    else (s.(store := s.store - {key}, cache := if s.options.enableCache then Delete(s.cache, key) else s.cache), Pass)
  }

  /** The read shared by the typed getters: a cache hit returns what the
      cache holds; a miss decodes `fromStore` from the store and caches it. */
  function CachedRead(s: State, key: string, fromStore: Value): (State, Value) {
    if CacheHit(s, key) then (s.(hits := s.hits + 1), Lookup(s.cache, key).value)
    else (s.(misses := s.misses + 1, cache := CachePut(s.cache, s.options, key, fromStore)), fromStore)
  }

  /** `getLanguage()`: a miss yields the stored string, or "en" when none is stored. */
  function GetLanguageStep(s: State): (State, Value) {
    CachedRead(s, LANGUAGE_KEY, Str(if LANGUAGE_KEY in s.store then s.store[LANGUAGE_KEY] else DEFAULT_LANGUAGE))
  }

  /** `setLanguage(language)`: the empty string is refused. */
  function SetLanguageStep(s: State, language: string): (State, Outcome<string>) {
    if language == [] then (s, Fail(LANGUAGE_EMPTY))
    else (s.(store := s.store[LANGUAGE_KEY := language], cache := CachePut(s.cache, s.options, LANGUAGE_KEY, Str(language))), Pass)
  }

  /** `getFirstLaunch()` and its two siblings: a miss yields whether the
      stored string is exactly "true". */
  function GetFlagStep(s: State, f: Flag): (State, Value) {
    CachedRead(s, FlagKey(f), Bool(FlagKey(f) in s.store && s.store[FlagKey(f)] == "true"))
  }

  /** `setFirstLaunch(b)` and its two siblings: the store holds `String(b)`,
      the cache the boolean itself. */
  function SetFlagStep(s: State, f: Flag, b: bool): State {
    s.(store := s.store[FlagKey(f) := BoolText(b)], cache := CachePut(s.cache, s.options, FlagKey(f), Bool(b)))
  }

  /** `clearAll()`: the store is emptied; the cache only when it is enabled. */
  function ClearAllStep(s: State): State {
    s.(store := map[], cache := if s.options.enableCache then [] else s.cache)
  }

  /** `clearStorageCache()`. */
  function ClearCacheStep(s: State): State {
    s.(cache := [], hits := 0, misses := 0)
  }

  /** `configureStorage(patch)`: the options become the defaults overridden
      by the patch, and unless the patch enables the cache explicitly the
      cache is cleared as by `clearStorageCache`. */
  function ConfigureStep(s: State, defaults: Options, patch: OptionsPatch): (r: State)
    ensures r.store == s.store
    ensures r.options.cacheSize == (if patch.cacheSize.Some? then patch.cacheSize.value else defaults.cacheSize)
    ensures r.options.enableCache == (patch.enableCache == Some(true) || (patch.enableCache == None && defaults.enableCache))
    ensures patch.enableCache != Some(true) ==> r.cache == [] && r.hits == 0 && r.misses == 0
    ensures patch.enableCache == Some(true) ==> r.cache == s.cache && r.hits == s.hits && r.misses == s.misses
  {
    var s1 := s.(options := Spread(defaults, patch));
    if patch.enableCache != Some(true) then ClearCacheStep(s1) else s1
  }

  /** `getStorageStats()` without the hit rate. */
  datatype Stats = Stats(totalKeys: nat, cacheSize: nat, cacheHits: nat, cacheMisses: nat)

  /** `getItem`, `setItem` and `removeItem` keep the cache within its
      bound and its keys distinct. */
  lemma ItemStepsKeepCache(s: State, parse: string -> Result<Value, string>, stringify: Value -> string,
                           key: string, v: Value)
    requires CacheWithinBound(s) && NoDuplicateKeys(s.cache)
    ensures var t := GetItemStep(s, parse, key).0; CacheWithinBound(t) && NoDuplicateKeys(t.cache)
    ensures var t := SetItemStep(s, stringify, key, v).0; CacheWithinBound(t) && NoDuplicateKeys(t.cache)
    ensures var t := RemoveItemStep(s, key).0; CacheWithinBound(t) && NoDuplicateKeys(t.cache)
  {
    GetItemKeepsCache(s, parse, key);
    SetItemKeepsCache(s, stringify, key, v);
  }

  /** `getItem` caches at most one parsed value, through the bounded put. */
  lemma GetItemKeepsCache(s: State, parse: string -> Result<Value, string>, key: string)
    requires CacheWithinBound(s) && NoDuplicateKeys(s.cache)
    ensures var t := GetItemStep(s, parse, key).0; CacheWithinBound(t) && NoDuplicateKeys(t.cache)
  {
    if key in s.store && parse(s.store[key]).Success? {
      CachePutProps(s, key, parse(s.store[key]).value);
    }
  }

  /** `setItem` caches the value it stored, through the bounded put. */
  lemma SetItemKeepsCache(s: State, stringify: Value -> string, key: string, v: Value)
    requires CacheWithinBound(s) && NoDuplicateKeys(s.cache)
    ensures var t := SetItemStep(s, stringify, key, v).0; CacheWithinBound(t) && NoDuplicateKeys(t.cache)
  {
    CachePutProps(s, key, v);
  }

  /** `getLanguage` and `setLanguage` keep the cache within its bound and
      its keys distinct. */
  lemma LanguageStepsKeepCache(s: State, language: string)
    requires CacheWithinBound(s) && NoDuplicateKeys(s.cache)
    ensures var t := GetLanguageStep(s).0; CacheWithinBound(t) && NoDuplicateKeys(t.cache)
    ensures var t := SetLanguageStep(s, language).0; CacheWithinBound(t) && NoDuplicateKeys(t.cache)
  {
    CachePutProps(s, LANGUAGE_KEY, Str(language));
    CachePutProps(s, LANGUAGE_KEY, Str(if LANGUAGE_KEY in s.store then s.store[LANGUAGE_KEY] else DEFAULT_LANGUAGE));
  }

  /** The boolean getters and setters keep the cache within its bound and
      its keys distinct. */
  lemma FlagStepsKeepCache(s: State, f: Flag, b: bool)
    requires CacheWithinBound(s) && NoDuplicateKeys(s.cache)
    ensures var t := GetFlagStep(s, f).0; CacheWithinBound(t) && NoDuplicateKeys(t.cache)
    ensures var t := SetFlagStep(s, f, b); CacheWithinBound(t) && NoDuplicateKeys(t.cache)
  {
    CachePutProps(s, FlagKey(f), Bool(FlagKey(f) in s.store && s.store[FlagKey(f)] == "true"));
    CachePutProps(s, FlagKey(f), Bool(b));
  }

  /** With a JSON round trip for `v`, an accepted `setItem` followed by
      `getItem` of the same key yields `v`: from the cache when it is
      enabled (a hit), otherwise by parsing what was stored. */
  lemma SetThenGet(s: State, parse: string -> Result<Value, string>, stringify: Value -> string, key: string, v: Value)
    requires SetItemStep(s, stringify, key, v).1 == Pass
    requires parse(stringify(v)) == Success(v) && stringify(v) != []
    ensures GetItemStep(SetItemStep(s, stringify, key, v).0, parse, key).1 == Success(v)
    ensures s.options.enableCache ==> CacheHit(SetItemStep(s, stringify, key, v).0, key)
  {
    CachePutProps(s, key, v);
  }

  /** After an accepted `removeItem`, `getItem` of that key is a miss that yields null. */
  lemma RemoveThenGet(s: State, parse: string -> Result<Value, string>, key: string)
    requires RemoveItemStep(s, key).1 == Pass
    ensures var t := RemoveItemStep(s, key).0;
      !CacheHit(t, key) && GetItemStep(t, parse, key) == (t.(misses := t.misses + 1), Success(Null))
  {
  }

  /** `setLanguage` then `getLanguage` yields the language just set, with
      the cache enabled or not. */
  lemma SetLanguageThenGet(s: State, language: string)
    requires SetLanguageStep(s, language).1 == Pass
    ensures GetLanguageStep(SetLanguageStep(s, language).0).1 == Str(language)
  {
    CachePutProps(s, LANGUAGE_KEY, Str(language));
  }

  /** A boolean setter followed by its getter yields the boolean just set,
      with the cache enabled or not. */
  lemma SetFlagThenGet(s: State, f: Flag, b: bool)
    ensures GetFlagStep(SetFlagStep(s, f, b), f).1 == Bool(b)
  {
    CachePutProps(s, FlagKey(f), Bool(b));
  }

  /** After `clearAll` every typed getter yields its default: "en" and false. */
  lemma ClearAllDefaults(s: State, f: Flag)
    ensures GetLanguageStep(ClearAllStep(s)).1 == Str(DEFAULT_LANGUAGE)
    ensures GetFlagStep(ClearAllStep(s), f).1 == Bool(false)
  {
  }

  /** The key a manager with prefix `prefix` stores `key` under. */
  function PrefixedKey(prefix: string, key: string): string {
    prefix + "_" + key
  }

  /** The length limit applies to the prefixed key: a manager
      accepts `key` exactly when prefix, separator and key fit together. */
  lemma PrefixedKeyValid(prefix: string, key: string)
    ensures ValidateKey(PrefixedKey(prefix, key)) == Pass <==> Utf16Length(prefix) + 1 + Utf16Length(key) <= MAX_KEY_LENGTH
  {
    var k := PrefixedKey(prefix, key);
    Utf16LengthAppend(prefix, "_");
    Utf16LengthBmp("_");
    Utf16LengthAppend(prefix + "_", key);
    assert k[|prefix|] == '_';
    assert !IsWhitespace(k[|prefix|]);
  }

  /** The keys `clear` of a manager with prefix `prefix` removes: the stored
      keys starting with `prefix + "_"` that `removeItem` accepts. */
  function ManagedKeys(s: State, prefix: string): set<string> {
    set k | k in s.store && StartsWith(k, prefix + "_") && ValidateKey(k) == Pass
  }

  /** The state after a manager's `clear`. */
  function ClearPrefixStep(s: State, prefix: string): State {
    var gone := ManagedKeys(s, prefix);
    s.(store := s.store - gone, cache := if s.options.enableCache then DeleteAll(s.cache, gone) else s.cache)
  }

  /** `t` is `s0` with the keys `removed` removed one `removeItem` at a time. */
  predicate RemovedFrom(s0: State, t: State, removed: set<string>) {
    && t.store == s0.store - removed
    && t.cache == (if s0.options.enableCache then DeleteAll(s0.cache, removed) else s0.cache)
    && t.hits == s0.hits && t.misses == s0.misses && t.options == s0.options
  }

  /** One more `removeItem` extends the removed keys by that key when it is valid. */
  lemma RemoveOneMore(s0: State, t: State, removed: set<string>, k: string)
    requires RemovedFrom(s0, t, removed)
    ensures RemovedFrom(s0, RemoveItemStep(t, k).0, if ValidateKey(k) == Pass then removed + {k} else removed)
  {
    if ValidateKey(k) == Pass && s0.options.enableCache {
      DeleteAfterDeleteAll(s0.cache, removed, k);
    }
  }

  class Storage {
    var store: map<string, string>
    var cache: seq<(string, Value)>
    var cacheHits: nat
    var cacheMisses: nat
    var options: Options
    const defaults: Options
    const parse: string -> Result<Value, string>
    const stringify: Value -> string

    function Snapshot(): State
      reads this
    {
      State(store, cache, cacheHits, cacheMisses, options)
    }

    ghost predicate Valid()
      reads this
    {
      NoDuplicateKeys(cache)
    }

    /** Module start-up over whatever the device has persisted. */
    constructor (persisted: map<string, string>, dev: bool,
                 parse: string -> Result<Value, string>, stringify: Value -> string)
      ensures Valid()
      ensures Snapshot() == State(persisted, [], 0, 0, DefaultOptions(dev)) && defaults == DefaultOptions(dev)
      ensures this.parse == parse && this.stringify == stringify
    {
      store := persisted;
      cache := [];
      cacheHits := 0;
      cacheMisses := 0;
      options := DefaultOptions(dev);
      defaults := DefaultOptions(dev);
      this.parse := parse;
      this.stringify := stringify;
    }

    /** `manageCacheSize()`. */
    method ManageCacheSize()
      requires Valid()
      modifies this`cache
      ensures Valid()
      ensures cache == EvictOldest(old(cache), options.cacheSize)
    {
      if |cache| >= options.cacheSize && cache != [] {
        EvictOldestLookup(cache, options.cacheSize, "");
        cache := cache[1..];
      }
    }

    /** Caches `v` under `key` when the cache is enabled. */
    method Remember(key: string, v: Value)
      requires Valid()
      modifies this`cache
      ensures Valid()
      ensures cache == CachePut(old(cache), options, key, v)
    {
      if options.enableCache {
        ManageCacheSize();
        cache := Set(cache, key, v);
      }
    }

    method GetItem(key: string) returns (r: Result<Value, string>)
      requires Valid()
      modifies this
      ensures Valid()
      ensures (Snapshot(), r) == GetItemStep(old(Snapshot()), parse, key)
    {
      var check := ValidateKey(key);
      if check.Fail? {
        assert GetItemStep(Snapshot(), parse, key) == (Snapshot(), Failure(check.error));
        return Failure(check.error);
      }
      if options.enableCache && Has(cache, key) {
        assert CacheHit(Snapshot(), key);
        cacheHits := cacheHits + 1;
        return Success(Lookup(cache, key).value);
      }
      r := ReadThrough(key);
    }

    /** The miss path of `getItem`: count the miss, parse what is stored
        and cache a non-null result. */
    method ReadThrough(key: string) returns (r: Result<Value, string>)
      requires Valid() && ValidateKey(key) == Pass && !CacheHit(Snapshot(), key)
      modifies this
      ensures Valid()
      ensures (Snapshot(), r) == GetItemStep(old(Snapshot()), parse, key)
    {
      cacheMisses := cacheMisses + 1;
      ghost var missed := Snapshot();
      assert missed == old(Snapshot()).(misses := old(Snapshot()).misses + 1);
      var result := Null;
      if key in store && store[key] != [] {
        var parsed := parse(store[key]);
        if parsed.Failure? {
          assert GetItemStep(old(Snapshot()), parse, key) == (missed, Failure(parsed.error));
          return Failure(parsed.error);
        }
        result := parsed.value;
      }
      ghost var expected := if result == Null then missed else missed.(cache := CachePut(cache, options, key, result));
      assert GetItemStep(old(Snapshot()), parse, key) == (expected, Success(result));
      if result != Null {
        Remember(key, result);
      }
      assert Snapshot() == expected;
      return Success(result);
    }

    method SetItem(key: string, v: Value) returns (r: Outcome<string>)
      requires Valid()
      modifies this
      ensures Valid()
      ensures (Snapshot(), r) == SetItemStep(old(Snapshot()), stringify, key, v)
    {
      var check := ValidateKey(key);
      if check.Fail? {
        return check;
      }
      if v == Undefined {
        return Fail(VALUE_UNDEFINED);
      }
      store := store[key := stringify(v)];
      Remember(key, v);
      return Pass;
    }

    method RemoveItem(key: string) returns (r: Outcome<string>)
      requires Valid()
      modifies this
      ensures Valid()
      ensures (Snapshot(), r) == RemoveItemStep(old(Snapshot()), key)
    {
      var check := ValidateKey(key);
      if check.Fail? {
        return check;
      }
      store := store - {key};
      if options.enableCache {
        cache := Delete(cache, key);
      }
      return Pass;
    }

    /** `getAllKeys()`; the order AsyncStorage reports them in is not modelled. */
    method GetAllKeys() returns (keys: set<string>)
      ensures keys == store.Keys
    {
      keys := store.Keys;
    }

    method GetLanguage() returns (language: Value)
      requires Valid()
      modifies this
      ensures Valid()
      ensures (Snapshot(), language) == GetLanguageStep(old(Snapshot()))
    {
      if options.enableCache && Has(cache, LANGUAGE_KEY) {
        cacheHits := cacheHits + 1;
        return Lookup(cache, LANGUAGE_KEY).value;
      }
      cacheMisses := cacheMisses + 1;
      var stored := if LANGUAGE_KEY in store then store[LANGUAGE_KEY] else DEFAULT_LANGUAGE;
      Remember(LANGUAGE_KEY, Str(stored));
      return Str(stored);
    }

    method SetLanguage(language: string) returns (r: Outcome<string>)
      requires Valid()
      modifies this
      ensures Valid()
      ensures (Snapshot(), r) == SetLanguageStep(old(Snapshot()), language)
    {
      if language == [] {
        return Fail(LANGUAGE_EMPTY);
      }
      store := store[LANGUAGE_KEY := language];
      Remember(LANGUAGE_KEY, Str(language));
      return Pass;
    }

    /** `getFirstLaunch`, `getNotificationsEnabled` and `getBiometricEnabled`. */
    method GetFlag(f: Flag) returns (flag: Value)
      requires Valid()
      modifies this
      ensures Valid()
      ensures (Snapshot(), flag) == GetFlagStep(old(Snapshot()), f)
    {
      var key := FlagKey(f);
      if options.enableCache && Has(cache, key) {
        cacheHits := cacheHits + 1;
        return Lookup(cache, key).value;
      }
      cacheMisses := cacheMisses + 1;
      var result := key in store && store[key] == "true";
      Remember(key, Bool(result));
      return Bool(result);
    }

    /** `setFirstLaunch`, `setNotificationsEnabled` and `setBiometricEnabled`. */
    method SetFlag(f: Flag, b: bool) returns (r: Outcome<string>)
      requires Valid()
      modifies this
      ensures Valid()
      ensures Snapshot() == SetFlagStep(old(Snapshot()), f, b) && r == Pass
    {
      store := store[FlagKey(f) := BoolText(b)];
      Remember(FlagKey(f), Bool(b));
      return Pass;
    }

    method ClearAll() returns (r: Outcome<string>)
      requires Valid()
      modifies this
      ensures Valid()
      ensures Snapshot() == ClearAllStep(old(Snapshot())) && r == Pass
    {
      store := map[];
      if options.enableCache {
        cache := [];
      }
      return Pass;
    }

    method ClearStorageCache()
      modifies this
      ensures Valid()
      ensures Snapshot() == ClearCacheStep(old(Snapshot()))
    {
      cache := [];
      cacheHits := 0;
      cacheMisses := 0;
    }

    method ConfigureStorage(patch: OptionsPatch)
      requires Valid()
      modifies this
      ensures Valid()
      ensures Snapshot() == ConfigureStep(old(Snapshot()), defaults, patch)
    {
      options := Spread(defaults, patch);
      if patch.enableCache != Some(true) {
        ClearStorageCache();
      }
    }

    method GetStorageStats() returns (stats: Stats)
      ensures stats == Stats(|store|, |cache|, cacheHits, cacheMisses)
    {
      stats := Stats(|store|, |cache|, cacheHits, cacheMisses);
    }
  }

  /** `createStorageManager(prefix)`: the four operations on keys under
      `prefix + "_"`. */
  class StorageManager {
    const storage: Storage
    const prefix: string

    constructor (storage: Storage, prefix: string)
      ensures this.storage == storage && this.prefix == prefix
    {
      this.storage := storage;
      this.prefix := prefix;
    }

    method Get(key: string) returns (r: Result<Value, string>)
      requires storage.Valid()
      modifies storage
      ensures storage.Valid()
      ensures (storage.Snapshot(), r) == GetItemStep(old(storage.Snapshot()), storage.parse, PrefixedKey(prefix, key))
    {
      r := storage.GetItem(PrefixedKey(prefix, key));
    }

    method Set(key: string, v: Value) returns (r: Outcome<string>)
      requires storage.Valid()
      modifies storage
      ensures storage.Valid()
      ensures (storage.Snapshot(), r) == SetItemStep(old(storage.Snapshot()), storage.stringify, PrefixedKey(prefix, key), v)
    {
      r := storage.SetItem(PrefixedKey(prefix, key), v);
    }

    method Remove(key: string) returns (r: Outcome<string>)
      requires storage.Valid()
      modifies storage
      ensures storage.Valid()
      ensures (storage.Snapshot(), r) == RemoveItemStep(old(storage.Snapshot()), PrefixedKey(prefix, key))
    {
      r := storage.RemoveItem(PrefixedKey(prefix, key));
    }

    /** `clear()`: removes the stored keys starting with `prefix + "_"`, one
        `removeItem` at a time, so a prefixed key longer than 100
        characters is left in place. */
    method Clear() returns (r: Outcome<string>)
      requires storage.Valid()
      modifies storage
      ensures storage.Valid()
      ensures storage.Snapshot() == ClearPrefixStep(old(storage.Snapshot()), prefix) && r == Pass
    {
      var keys := storage.GetAllKeys();
      var prefixed := set k | k in keys && StartsWith(k, prefix + "_");
      var remaining := prefixed;
      ghost var s0 := storage.Snapshot();
      ghost var removed: set<string> := {};
      DeleteAllNothing(s0.cache);
      while remaining != {}
        invariant storage.Valid()
        invariant remaining <= prefixed
        invariant forall x :: x in removed <==> x in prefixed && x !in remaining && ValidateKey(x) == Pass
        invariant RemovedFrom(s0, storage.Snapshot(), removed)
        decreases remaining
      {
        var k :| k in remaining;
        ghost var valid := ValidateKey(k) == Pass;
        RemoveOneMore(s0, storage.Snapshot(), removed, k);
        var outcome := storage.RemoveItem(k);
        if valid {
          removed := removed + {k};
        }
        remaining := remaining - {k};
      }
      assert forall x :: x in removed <==> x in ManagedKeys(s0, prefix);
      assert removed == ManagedKeys(s0, prefix);
      return Pass;
    }
  }
}
