# React Native template: app logic in Dafny

This project models the application logic of a React Native / Expo app
template and proves properties of that model. It covers the logic, not
the rendering. The parts modelled are:

- **Storage layers.** The AsyncStorage wrapper in `src/utils/storage.ts`:
  - key validation;
  - a bounded cache that keeps insertion order;
  - hit and miss counters;
  - typed accessors;
  - prefixed storage managers.

  Also modelled are the plain AsyncStorage helpers in `utils/storage.ts`
  and the MMKV adapter and typed storage in `src/utils/mmkv.ts`.
- **Class names.** The memoising class-name merger in
  `src/utils/classname.ts`, with its builder and validator.
- **Responsive typography.** The rules in `src/utils/typography.ts`,
  `src/theme/utils/typography.ts` and
  `src/theme/hooks/useResponsiveTypography.ts`:
  - the font-size scale and its clamped shifts;
  - the reader's text-size preference;
  - device classes by the smaller window side;
  - size classes and preset strings.

  The font-size filter of `ResponsiveText` is modelled too.
- **Theme class tables.** The tables built by
  `src/theme/utils/createThemeClasses.ts`.
- **Theme state.** Four variants of theme state:
  - the zustand theme store (`src/theme/stores/useThemeStore.ts`);
  - the theme preference store (`src/stores/theme.ts`);
  - the theme context provider (`src/theme/contexts/ThemeContext.tsx`);
  - the colour-mode provider (`hooks/useTheme.tsx`).
- **Settings.** The settings store (`src/stores/settings.ts`) and the
  subset of it that is persisted.
- **Device language.** Extraction of the device language in
  `src/i18n/index.ts`, and the older variant in `i18n/index.ts`.
- **Dates.** The date-format fallbacks, relative-date buckets and date
  ranges of `src/utils/date.ts`.
- **Toasts and the bottom sheet.** The toast list of
  `src/components/common/Toast.tsx`, and the snap and close decision of
  `src/components/common/Sheet.tsx`.
- **Scheduling.** The throttling and debouncing hooks
  (`src/hooks/useThrottle.ts`, `src/hooks/useDebounce.ts`), each as a
  clocked state machine with a single pending timer.
- **Logger.** The logger of `src/utils/logger.ts`: its level filter,
  message format, scoped loggers and console calls.
- **Sentry.** The DSN check, init flag and event filters of
  `src/utils/sentry.ts`.
- **Analytics.** The analytics wrapper of `src/lib/analytics.ts`: the
  initialised guard, screen tracking, the previous screen, and reset.

Platform inputs become parameters:

- the clock (`now`);
- the system colour scheme;
- window dimensions and pixel ratio;
- what AsyncStorage or MMKV hold, and whether a call fails;
- JSON `parse` and `stringify`;
- `twMerge(clsx(...))`;
- dayjs / date-fns formatting;
- `t(...)` translation;
- toast ids;
- whether an SDK call throws.

Code that changes state step by step is a class whose methods update its
fields. Each such method ensures that its new state equals a pure step
function applied to the old one. The properties are proved about those
step functions.

Each file holds one module:

- shared modules:
  - `wrappers.dfy`: Option, Result, Outcome;
  - `strings.dfy`: trim, split, join, contains and ASCII lower case;
  - `ordered_map.dfy`: a JavaScript `Map` as a sequence of pairs in insertion order;
  - `theme_modes.dfy`: light and dark modes and `createTheme`;
- one module for each modelled source file.

## Model

| member | source | states |
|---|---|---|
| OrderedMap.Set | src/utils/storage.ts:51-58 | `Map.set`: the key then reads the new value and every other key is unchanged; a new key goes last, an existing one keeps its place; distinct keys stay distinct |
| OrderedMap.Delete | src/utils/storage.ts:378-381 | `Map.delete`: the key reads nothing afterwards, the other keys are unchanged, and an absent key leaves the map as it was |
| OrderedMap.EvictOldestLookup | src/utils/storage.ts:51-58 | dropping the oldest entry keeps the rest of the entries and their values, and keeps keys distinct |
| OrderedMap.EvictThenSetBounded | src/utils/classname.ts:29-35 | evicting the oldest entry when the map is full and then inserting keeps the size at most the limit, for a limit of at least 1 |
| OrderedMap.DeleteAll | src/utils/storage.ts:464-469 | deleting a set of keys: each of them reads nothing afterwards and every other key reads as before |
| OrderedMap.DeleteAllNothing | src/utils/storage.ts:464-469 | deleting no keys leaves the map as it is |
| OrderedMap.DeleteAfterDeleteAll | src/utils/storage.ts:466-468 | one more delete after a batch is the batch with that key added |
| Strings.Utf16LengthBounds | src/utils/storage.ts:45 | the UTF-16 length lies between the number of characters and twice it |
| Strings.Utf16LengthAppend | src/utils/storage.ts:45 | the UTF-16 length of a concatenation is the sum of the lengths |
| Strings.Utf16LengthBmp | src/utils/storage.ts:45 | within the Basic Multilingual Plane the UTF-16 length is the number of characters; one character above it counts two |
| Strings.Utf16PrefixAstral | src/utils/storage.ts:45 | characters above U+FFFF count two code units each |
| Strings.TrimEmptyIffBlank | src/utils/storage.ts:42 | `s.trim()` is empty iff every character of s is white space |
| Strings.TrimUnchangedIff | src/utils/classname.ts:97 | `s.trim() !== s` iff s starts or ends with white space |
| Strings.Split | src/i18n/index.ts:48 | `split` yields at least one piece and no piece contains the separator |
| Strings.JoinSplit | src/components/common/ResponsiveText.tsx:62-64 | joining the pieces of a split restores the string |
| Strings.SplitJoin | src/components/common/ResponsiveText.tsx:62-64 | splitting a join of separator-free pieces gives the pieces back |
| Strings.ToLower | src/i18n/index.ts:48 | `toLowerCase` keeps the length and lowers each character |
| AppStorage.ValidateKey | src/utils/storage.ts:38-49 | a key passes iff it is non-empty, not all white space and at most 100 UTF-16 code units long; each failure carries its own message |
| AppStorage.AstralKeyTooLong | src/utils/storage.ts:45-47 | a key of 51 emoji is 102 code units and is refused as too long |
| AppStorage.FixedKeysValid | src/utils/storage.ts:38-49 | the fixed keys used at lines 62, 119, 172 and 225 ("language" and the three flag keys) always pass validation |
| AppStorage.CachePutProps | src/utils/storage.ts:51-58 | an insert through the cache keeps it within `cacheSize` and its keys distinct, and the inserted key then reads back its value |
| AppStorage.GetItemStep | src/utils/storage.ts:314-344 | invalid key: failure, and store, cache and counters unchanged; cache hit: only `cacheHits` grows; miss: only `cacheMisses` grows; an absent or empty stored value yields null and is not cached |
| AppStorage.SetItemStep | src/utils/storage.ts:346-370 | succeeds iff the key is valid and the value is not undefined, in which case the store holds the serialised value; counters and options are unchanged |
| AppStorage.RemoveItemStep | src/utils/storage.ts:372-391 | a valid key is gone from both store and cache, and every other key is untouched |
| AppStorage.ConfigureStep | src/utils/storage.ts:407-424 | the options become the defaults overridden by the patch; the cache and both counters are cleared unless the patch sets `enableCache` to true; the store is untouched |
| AppStorage.ItemStepsKeepCache | src/utils/storage.ts:51-58 | getItem, setItem and removeItem keep the cache within its bound and its keys distinct |
| AppStorage.GetItemKeepsCache | src/utils/storage.ts:314-345 | the cache a getItem leaves stays within its bound with distinct keys |
| AppStorage.SetItemKeepsCache | src/utils/storage.ts:346-371 | the cache a setItem leaves stays within its bound with distinct keys |
| AppStorage.LanguageStepsKeepCache | src/utils/storage.ts:60-111 | getLanguage and setLanguage keep the cache within its bound and its keys distinct |
| AppStorage.FlagStepsKeepCache | src/utils/storage.ts:117-168 | the boolean getters and setters keep the cache within its bound and its keys distinct |
| AppStorage.SetThenGet | src/utils/storage.ts:346-360 | with a JSON round trip, an accepted setItem followed by getItem yields the value set, and it is a cache hit when the cache is enabled |
| AppStorage.RemoveThenGet | src/utils/storage.ts:372-381 | after removeItem, getItem of that key is a miss yielding null |
| AppStorage.SetLanguageThenGet | src/utils/storage.ts:60-111 | setLanguage then getLanguage yields the language set, whether the cache is on or off |
| AppStorage.SetFlagThenGet | src/utils/storage.ts:117-160 | a boolean setter stores `String(b)` and its getter then yields b |
| AppStorage.ClearAllDefaults | src/utils/storage.ts:276-291 | after clearAll the language getter yields "en" and every flag getter yields false |
| AppStorage.PrefixedKeyValid | src/utils/storage.ts:448-458 | a manager key is accepted iff the UTF-16 lengths of prefix, "_" and key add up to at most 100 |
| AppStorage.RemoveOneMore | src/utils/storage.ts:466-468 | each removeItem of the clear loop extends the set of removed keys by that key when it is valid |
| AppStorage.Storage.constructor | src/utils/storage.ts:26-36 | empty cache, zero counters and the default options |
| AppStorage.Storage.ManageCacheSize | src/utils/storage.ts:51-58 | deletes the oldest entry when the cache holds at least `cacheSize` entries |
| AppStorage.Storage.Remember | src/utils/storage.ts:70-73 | caches the value after making room, only when the cache is enabled |
| AppStorage.Storage.GetItem | src/utils/storage.ts:314-344 | its result and new state are those of GetItemStep |
| AppStorage.Storage.ReadThrough | src/utils/storage.ts:328-338 | the miss path: new state and result equal GetItemStep |
| AppStorage.Storage.SetItem | src/utils/storage.ts:346-370 | its result and new state are those of SetItemStep |
| AppStorage.Storage.RemoveItem | src/utils/storage.ts:372-391 | its result and new state are those of RemoveItemStep |
| AppStorage.Storage.GetAllKeys | src/utils/storage.ts:393-405 | exactly the stored keys |
| AppStorage.Storage.GetLanguage | src/utils/storage.ts:85-111 | a hit returns the cached value; a miss returns the stored language or "en" and caches it |
| AppStorage.Storage.SetLanguage | src/utils/storage.ts:60-83 | an empty language is refused; otherwise the store and the cache hold it |
| AppStorage.Storage.GetFlag | src/utils/storage.ts:142-168 | a miss yields whether the stored string is exactly "true", and caches it (the same getter is repeated at 195-221 and 248-274) |
| AppStorage.Storage.SetFlag | src/utils/storage.ts:117-140 | the store holds `String(b)` and the cache holds b (the same setter is repeated at 170-193 and 223-246) |
| AppStorage.Storage.ClearAll | src/utils/storage.ts:276-291 | the store is emptied, and the cache too when it is enabled |
| AppStorage.Storage.ClearStorageCache | src/utils/storage.ts:416-423 | empty cache and both counters zero |
| AppStorage.Storage.ConfigureStorage | src/utils/storage.ts:407-415 | its new state is that of ConfigureStep |
| AppStorage.Storage.GetStorageStats | src/utils/storage.ts:425-445 | the key count, cache size and both counters |
| AppStorage.StorageManager.constructor | src/utils/storage.ts:448-449 | a manager over the storage with the given prefix |
| AppStorage.StorageManager.Get | src/utils/storage.ts:450-452 | getItem of prefix + "_" + key |
| AppStorage.StorageManager.Set | src/utils/storage.ts:453-455 | setItem of prefix + "_" + key |
| AppStorage.StorageManager.Remove | src/utils/storage.ts:456-458 | removeItem of prefix + "_" + key |
| AppStorage.StorageManager.Clear | src/utils/storage.ts:459-474 | removes exactly the stored keys that start with prefix + "_" and pass validation, from the store and from the cache |
| SimpleStorage.StoredOr | utils/storage.ts:10-20 | the stored string when the key is present, else the default |
| SimpleStorage.FlagIn | utils/storage.ts:26-44 | true iff the stored string is exactly "true"; an absent key reads false |
| SimpleStorage.ItemIn | utils/storage.ts:57-60 | null for an absent or empty value, else the parse of the stored string |
| SimpleStorage.SettingsRoundTrip | utils/storage.ts:7-44 | each setter followed by its getter returns the value set, and writing one key leaves the others' getters unchanged |
| SimpleStorage.ClearedDefaults | utils/storage.ts:47-49 | after clearAll the getters return "en", "system", false and null |
| SimpleStorage.ItemRoundTrip | utils/storage.ts:57-64 | setItem then getItem returns the value when JSON round-trips it |
| SimpleStorage.Storage.constructor | utils/storage.ts:5 | the storage over the persisted map |
| SimpleStorage.Storage.SetLanguage | utils/storage.ts:7-9 | the store maps "language" to the value |
| SimpleStorage.Storage.GetLanguage | utils/storage.ts:10-12 | the stored language or "en" |
| SimpleStorage.Storage.SetTheme | utils/storage.ts:15-17 | the store maps "theme" to the value |
| SimpleStorage.Storage.GetTheme | utils/storage.ts:18-20 | the stored theme or "system" |
| SimpleStorage.Storage.SetFlag | utils/storage.ts:23-25 | the store holds `String(b)` under the flag's key |
| SimpleStorage.Storage.GetFlag | utils/storage.ts:26-28 | whether the stored string is "true" |
| SimpleStorage.Storage.ClearAll | utils/storage.ts:47-49 | the store is empty |
| SimpleStorage.Storage.GetItem | utils/storage.ts:57-60 | ItemIn of the store |
| SimpleStorage.Storage.SetItem | utils/storage.ts:62-64 | the store holds the serialised value |
| Mmkv.Adapter.constructor | src/utils/mmkv.ts:34-37 | an adapter over the given store |
| Mmkv.Adapter.Read | src/utils/mmkv.ts:39-47 | a failing store reads null; otherwise a key reads its value iff present |
| Mmkv.Adapter.GetItem | src/utils/mmkv.ts:39-47 | Read of the key, with failures swallowed as null |
| Mmkv.Adapter.SetItem | src/utils/mmkv.ts:49-55 | the store holds the value unless the store fails, when nothing changes |
| Mmkv.Adapter.RemoveItem | src/utils/mmkv.ts:57-63 | the key is deleted unless the store fails |
| Mmkv.Adapter.Clear | src/utils/mmkv.ts:65-71 | the store is emptied unless it fails |
| Mmkv.Adapter.GetAllKeys | src/utils/mmkv.ts:73-80 | the stored keys, or none when the store fails; a key is listed iff it reads a value |
| Mmkv.DecodeBoolean | src/utils/mmkv.ts:110-116 | null iff absent; true iff the stored string is "true" |
| Mmkv.BooleanRoundTrip | src/utils/mmkv.ts:110-123 | setBoolean(b) then getBoolean yields b |
| Mmkv.DecodeObject | src/utils/mmkv.ts:147-159 | null when absent or when parsing fails, else the parsed value |
| Mmkv.TypedStorage.constructor | src/utils/mmkv.ts:89-91 | typed storage over the adapter |
| Mmkv.TypedStorage.GetString | src/utils/mmkv.ts:96-98 | the adapter's read |
| Mmkv.TypedStorage.SetString | src/utils/mmkv.ts:103-105 | the key then reads the value (store not failing), and every other key reads as before |
| Mmkv.TypedStorage.GetBoolean | src/utils/mmkv.ts:110-116 | DecodeBoolean of the read |
| Mmkv.TypedStorage.SetBoolean | src/utils/mmkv.ts:121-123 | the key reads `String(b)`, and other keys are unchanged |
| Mmkv.TypedStorage.GetObject | src/utils/mmkv.ts:147-159 | DecodeObject of the read |
| Mmkv.TypedStorage.SetObject | src/utils/mmkv.ts:164-171 | the serialised value is stored; a serialisation failure or a failing store changes nothing |
| Mmkv.TypedStorage.RemoveItem | src/utils/mmkv.ts:176-178 | the key reads null and other keys are unchanged |
| Mmkv.TypedStorage.Contains | src/utils/mmkv.ts:183-185 | true iff the key reads a value |
| Mmkv.TypedStorage.GetAllKeys | src/utils/mmkv.ts:190-192 | a key is listed iff it reads a value |
| Mmkv.TypedStorage.Clear | src/utils/mmkv.ts:197-199 | every key reads null |
| ClassNames.FaithfulLookup | src/utils/classname.ts:25-27 | a cache whose entries are all merges of their keys returns the merge of the key on a hit |
| ClassNames.FaithfulSet | src/utils/classname.ts:35 | inserting a key's merge keeps the cache faithful |
| ClassNames.ClassNameCache.constructor | src/utils/classname.ts:4-18 | empty cache, caching on, 1000 entries |
| ClassNames.ClassNameCache.Cn | src/utils/classname.ts:20-37 | returns the uncached merge of the inputs (cache transparency); disabled: cache untouched; hit: cache untouched; miss: oldest key evicted when full, then the key inserted; size stays at most `cacheSize` |
| ClassNames.ClassNameCache.ClearClassNameCache | src/utils/classname.ts:46-48 | empty cache |
| ClassNames.ClassNameCache.ConfigureClassName | src/utils/classname.ts:39-44 | options are the defaults overridden by the patch; the cache is cleared unless the patch sets `enableCache` to true |
| ClassNames.ClassNameCache.GetClassNameCacheStats | src/utils/classname.ts:50-61 | size and maxSize |
| ClassNames.ClassNameCache.Build | src/utils/classname.ts:75-84 | cn of the builder's parts |
| ClassNames.FilterTruthy | src/utils/classname.ts:82 | keeps exactly the truthy values |
| ClassNames.FilterTruthyAppend | src/utils/classname.ts:76-82 | filtering distributes over concatenation |
| ClassNames.BuildOrder | src/utils/classname.ts:76-82 | the parts come in the order base, variant, size, colour, additional, each dropped when falsy |
| ClassNames.InputWarningsEmptyIff | src/utils/classname.ts:94-102 | an input gives no warning iff it is not null or undefined and, as a string, has no double space and no leading or trailing white space |
| ClassNames.WarningsEmptyIff | src/utils/classname.ts:93-103 | there are no warnings iff every input is clean |
| ClassNames.ValidateClassNames | src/utils/classname.ts:88-108 | the warnings are collected input by input, and isValid iff every input is clean |
| Typography.Name | src/utils/typography.ts:49-60 | every scale name is non-empty and has no space |
| Typography.IndexOf | src/utils/typography.ts:69 | every size has its position on the scale |
| Typography.IndexOfOrder | src/utils/typography.ts:49-60 | IndexOf inverts the scale order |
| Typography.ShiftFontSize | src/utils/typography.ts:68-76 | the result's index is the shifted index clamped to [0, 9]; a non-negative shift never moves down and a non-positive one never moves up |
| Typography.ShiftZero | src/theme/hooks/useResponsiveTypography.ts:35-43 | a shift of zero is the identity |
| Typography.ShiftMonotone | src/utils/typography.ts:68-76 | a larger shift never gives a smaller size |
| Typography.ShiftCompose | src/theme/hooks/useResponsiveTypography.ts:35-43 | shifts compose when the first stays on the scale |
| Typography.ApplyTextSizePreference | src/utils/typography.ts:62-81 | "smaller" steps down one, "default" is the identity, "bigger" steps up one, saturating at xs and 6xl |
| Typography.PreferenceSaturates | src/theme/hooks/useResponsiveTypography.ts:29-48 | bigger(6xl) = 6xl and smaller(xs) = xs |
| Typography.SmallerThenBigger | src/theme/hooks/useResponsiveTypography.ts:29-48 | strictly between xs and 6xl, smaller then bigger (and the reverse) returns the size |
| Typography.SmallerThenBiggerAtXs | src/theme/hooks/useResponsiveTypography.ts:29-48 | at xs the clamp loses a step: smaller then bigger gives sm |
| Typography.GetDeviceType | src/utils/typography.ts:91-102 | desktop iff min(w,h) ≥ 1024, tablet iff 768 ≤ min(w,h) < 1024, else phone |
| Typography.DeviceTypeSymmetric | src/utils/typography.ts:93 | the class does not depend on the window's orientation |
| Typography.DeviceTypeMonotone | src/theme/utils/typography.ts:18-24 | a larger window never gets a smaller device class |
| Typography.SizeClass | src/utils/typography.ts:200 | `text-<size>` has no space |
| Typography.ResponsiveTextClassRule | src/utils/typography.ts:194-235 | on tablets the class is that of the size shifted up one (clamped); on every other device and density it is `text-<size>` |
| Typography.TabletClassRule | src/utils/typography.ts:201-215 | the tablet size map is the scale shifted up one step, with 6xl staying 6xl |
| Typography.DensePhoneClassRule | src/utils/typography.ts:216-230 | the high-density phone size map gives every size its own `text-<size>` class |
| Typography.TableWords | src/utils/typography.ts:241-322 | the table's weight and colour classes are single words |
| Typography.PresetWords | src/utils/typography.ts:241-322 | every preset's weight and colours are single words |
| Typography.PresetStringWords | src/utils/typography.ts:328 | a preset string splits into size class, weight and the two colour classes |
| Typography.GetTypographyPreset | src/utils/typography.ts:324-329 | its words are the responsive class of the preset's size, the weight and the contrast classes |
| Typography.PreferredAgrees | src/utils/typography.ts:334-371 | the hook's class and preset use the preference-adjusted size, and equal the plain functions under "default" |
| ThemeTypography.ResponsiveTextClassRule | src/theme/utils/typography.ts:117-158 | tablets get the next size up, clamped at 6xl; other devices the size itself; it agrees with the `src/utils` version |
| ThemeTypography.GetTypographyPreset | src/theme/utils/typography.ts:163-168 | class, weight and contrast joined by single spaces |
| ThemeTypography.PreferredPreset | src/theme/hooks/useResponsiveTypography.ts:88-95 | the preference-adjusted size class followed by the preset's weight and contrast; under "default" equal to the plain preset |
| ThemeTypography.TabletBiggerClass | src/theme/hooks/useResponsiveTypography.ts:83-86 | on a tablet "bigger" moves two steps up the scale, clamped |
| ResponsiveText.SizeTokens | src/components/common/ResponsiveText.tsx:14 | every `text-<size>` of the scale is a size token; "text-base", "text-text-light" and "text-7xl" are not |
| ResponsiveText.KeepNonSize | src/components/common/ResponsiveText.tsx:63 | keeps exactly the tokens that are not size classes |
| ResponsiveText.KeepNonSizeIdempotent | src/components/common/ResponsiveText.tsx:60-64 | filtering twice is filtering once |
| ResponsiveText.KeepNonSizeCons | src/components/common/ResponsiveText.tsx:63 | the filter works token by token, keeping order |
| ResponsiveText.FilterFontSizeClassesSpec | src/components/common/ResponsiveText.tsx:55-65 | "" stays ""; the result splits into the kept tokens in their order; no output token is a size class |
| ResponsiveText.FilterFontSizeClassesIdempotent | src/components/common/ResponsiveText.tsx:55-65 | filterFontSizeClasses is idempotent |
| ResponsiveText.PresetWordsKept | src/components/common/ResponsiveText.tsx:14 | no preset weight or colour class is a size token |
| ResponsiveText.FilterDropsLeadingSize | src/components/common/ResponsiveText.tsx:60-64 | a size class followed by three other words loses exactly the size class |
| ResponsiveText.PresetClassesLoseSize | src/components/common/ResponsiveText.tsx:94-95 | the filtered preset string is the preset's weight and contrast only |
| ResponsiveText.TextClassNameParts | src/components/common/ResponsiveText.tsx:91-103 | with a preset, cn receives the weight and contrast and the filtered className; without one, the default text colour and the filtered className |
| ThemeClasses.FromEntries | src/theme/utils/createThemeClasses.ts:132-137 | a key is present iff some entry has it, and it holds the value of its last entry (later assignments win) |
| ThemeClasses.FromEntriesSnoc | src/theme/utils/createThemeClasses.ts:67-84 | adding one more entry is one more assignment |
| ThemeClasses.ColorEntries | src/theme/utils/createThemeClasses.ts:9-55 | one entry per colour rule, each a single property read from the palette |
| ThemeClasses.ColorClasses | src/theme/utils/createThemeClasses.ts:6-57 | the class names are exactly the rule names |
| ColorRules.ColorNamesDistinct | src/theme/utils/createThemeClasses.ts:9-55 | the colour class names are distinct |
| ThemeClasses.ColorClassLookup | src/theme/utils/createThemeClasses.ts:6-57 | each colour class maps to exactly one scheme field under its property |
| ThemeClasses.ColorClassesReadOnlyRuleFields | src/theme/utils/createThemeClasses.ts:7 | the table depends only on the colour fields the rules name |
| ThemeClasses.PrefixedInjective | src/theme/utils/createThemeClasses.ts:68-83 | two margin/padding prefixes plus keys spell the same name only for the same prefix and key |
| ThemeClasses.PrefixesClash | src/theme/utils/createThemeClasses.ts:140-155 | names starting differently differ |
| ThemeClasses.SamePrefixDiffers | src/theme/utils/createThemeClasses.ts:68-83 | one prefix with different keys gives different names |
| ThemeClasses.SpacingRulesWellFormed | src/theme/utils/createThemeClasses.ts:68-83 | the 14 prefixes are distinct and each has its only dash at the end |
| ThemeClasses.SpacingEntries | src/theme/utils/createThemeClasses.ts:67-84 | 14 assignments per spacing step, in loop order |
| ThemeClasses.DivMod14 | src/theme/utils/createThemeClasses.ts:67-84 | the position of assignment j of step i |
| ThemeClasses.CreateSpacingClasses | src/theme/utils/createThemeClasses.ts:62-87 | the loop builds exactly the spacing table |
| ThemeClasses.SpacingStep | src/theme/utils/createThemeClasses.ts:68-83 | one loop assignment adds one class |
| ThemeClasses.SpacingNamesDiffer | src/theme/utils/createThemeClasses.ts:67-84 | distinct (step, prefix) pairs give distinct names |
| ThemeClasses.SpacingClassLookup | src/theme/utils/createThemeClasses.ts:67-84 | every margin/padding class of a key maps to the one-field style holding spacing[key] |
| ThemeClasses.GroupEntries | src/theme/utils/createThemeClasses.ts:97-119 | one typography loop's assignments: prefix + key mapped to a one-field style |
| ThemeClasses.AddGroup | src/theme/utils/createThemeClasses.ts:97-119 | a typography loop continues the assignments made so far |
| ThemeClasses.AddGroupStep | src/theme/utils/createThemeClasses.ts:67-84 | one more assignment of the spacing loop adds that one class to the table built so far |
| ThemeClasses.AppendGroupStep | src/theme/utils/createThemeClasses.ts:97-119 | one more assignment of a typography loop, after the earlier loops, adds that one class |
| ThemeClasses.CreateTypographyClasses | src/theme/utils/createThemeClasses.ts:92-122 | the five loops build exactly the typography table |
| ThemeClasses.FontFamilyWins | src/theme/utils/createThemeClasses.ts:117-119 | font-family-k maps to the family, since its loop runs last |
| ThemeClasses.WeightFamilyCollision | src/theme/utils/createThemeClasses.ts:102-119 | a weight key "family-k" collides with font-family-k, and the family wins |
| ThemeClasses.FontSizeLookup | src/theme/utils/createThemeClasses.ts:97-99 | text-k maps to fontSize k |
| ThemeClasses.RoundedEntries | src/theme/utils/createThemeClasses.ts:132-134 | rounded-k paired with a borderRadius style |
| ThemeClasses.ShadowEntries | src/theme/utils/createThemeClasses.ts:137 | shadow-k paired with the shadow unchanged |
| ThemeClasses.UtilityClasses | src/theme/utils/createThemeClasses.ts:127-157 | every fixed utility class is present |
| ThemeClasses.FixedNamesPlain | src/theme/utils/createThemeClasses.ts:140-155 | no fixed utility name starts like "rounded-" or "shadow-" |
| ThemeClasses.FixedNotTokenClass | src/theme/utils/createThemeClasses.ts:140-155 | no fixed utility is overridden by a rounded or shadow class, nor overrides one |
| ThemeClasses.UtilityLookup | src/theme/utils/createThemeClasses.ts:130-156 | each last assignment of a name is its value |
| ThemeClasses.RoundedLookup | src/theme/utils/createThemeClasses.ts:132-134 | rounded-k maps to {borderRadius: borderRadius[k]} |
| ThemeClasses.RoundedLast | src/theme/utils/createThemeClasses.ts:132-156 | no later entry reassigns rounded-k |
| ThemeClasses.ShadowLookup | src/theme/utils/createThemeClasses.ts:137 | shadow-k maps to shadows[k] unchanged |
| ThemeClasses.ShadowLast | src/theme/utils/createThemeClasses.ts:137-156 | no later entry reassigns shadow-k |
| ThemeModes.Flip | src/theme/stores/useThemeStore.ts:74 | flipping always changes the mode |
| ThemeModes.FlipTwice | src/theme/stores/useThemeStore.ts:72-77 | flipping twice restores the mode |
| ThemeModes.SystemMode | src/theme/stores/useThemeStore.ts:110 | dark iff the system scheme is dark |
| ThemeModes.CreateTheme | src/theme/stores/useThemeStore.ts:37-49 | the theme carries the mode and uses the dark colours iff the mode is dark |
| ThemeModes.CreateThemeInjective | src/theme/stores/useThemeStore.ts:37-49 | different modes give different themes |
| ThemeStore.GetInitialMode | src/theme/stores/useThemeStore.ts:51-57 | following the system: dark iff the system scheme is dark; otherwise defaultMode |
| ThemeStore.Initial | src/theme/stores/useThemeStore.ts:62-65 | follows the system with default light, and the theme matches the mode |
| ThemeStore.SetModeStep | src/theme/stores/useThemeStore.ts:67-70 | sets the mode with a matching theme; config unchanged |
| ThemeStore.ToggleModeStep | src/theme/stores/useThemeStore.ts:72-77 | flips the mode with a matching theme |
| ThemeStore.ToggleTwice | src/theme/stores/useThemeStore.ts:72-77 | toggling twice restores the state |
| ThemeStore.ResetModeStep | src/theme/stores/useThemeStore.ts:79-84 | mode := getInitialMode(followSystemTheme, defaultMode) with a matching theme |
| ThemeStore.SetConfigStep | src/theme/stores/useThemeStore.ts:86-104 | merges the given fields; the mode is recomputed only when a field was given; the theme matches the mode |
| ThemeStore.EmptyConfigKeepsState | src/theme/stores/useThemeStore.ts:86-104 | setConfig({}) changes nothing |
| ThemeStore.ConfigThenReset | src/theme/stores/useThemeStore.ts:79-104 | after a non-empty setConfig, resetMode changes nothing |
| ThemeStore.UpdateThemeStep | src/theme/stores/useThemeStore.ts:106-116 | a no-op unless following the system, when the mode becomes the system mode; keeps the theme in step |
| ThemeStore.UpdateThemeIdempotent | src/theme/stores/useThemeStore.ts:106-116 | updating twice is updating once |
| ThemeStore.AppearanceChangeStep | src/theme/stores/useThemeStore.ts:140-151 | the listener adopts a non-null scheme when following the system, and otherwise changes nothing |
| ThemeStore.ListenerAgreesWithUpdate | src/theme/stores/useThemeStore.ts:106-151 | for a non-null scheme the listener and updateTheme agree |
| ThemeStore.Partialize | src/theme/stores/useThemeStore.ts:120-124 | persists exactly mode, followSystemTheme and defaultMode |
| ThemeStore.RehydrateAsWrittenBreaksInStep | src/theme/stores/useThemeStore.ts:118-125 | as written, restoring a dark mode over a light start keeps the light theme object |
| ThemeStore.Rehydrate | src/theme/stores/useThemeStore.ts:118-125 | the corrected restore rebuilds the theme, keeping it in step and returning the persisted fields |
| ThemeStore.PartializeRehydrate | src/theme/stores/useThemeStore.ts:120-124 | persisting then restoring a store gives the same store back |
| ThemeStore.Store.constructor | src/theme/stores/useThemeStore.ts:62-65 | the initial state |
| ThemeStore.Store.SetMode | src/theme/stores/useThemeStore.ts:67-70 | new state = SetModeStep |
| ThemeStore.Store.ToggleMode | src/theme/stores/useThemeStore.ts:72-77 | new state = ToggleModeStep |
| ThemeStore.Store.ResetMode | src/theme/stores/useThemeStore.ts:79-84 | new state = ResetModeStep |
| ThemeStore.Store.SetConfig | src/theme/stores/useThemeStore.ts:86-104 | new state = SetConfigStep |
| ThemeStore.Store.UpdateTheme | src/theme/stores/useThemeStore.ts:106-116 | new state = UpdateThemeStep |
| ThemeStore.Store.OnAppearanceChange | src/theme/stores/useThemeStore.ts:140-151 | new state = AppearanceChangeStep |
| ThemeStore.Store.Rehydrate | src/theme/stores/useThemeStore.ts:118-125 | restores the persisted fields with the theme in step |
| ThemePreferences.GetSystemTheme | src/stores/theme.ts:19-22 | dark iff the OS reports dark |
| ThemePreferences.Initial | src/stores/theme.ts:27-29 | light theme, not following the system, the system theme read once |
| ThemePreferences.EffectiveTheme | src/stores/theme.ts:48-51 | the system theme when following it, else the chosen theme |
| ThemePreferences.ToggleStep | src/stores/theme.ts:31-35 | stops following the system and flips the effective theme |
| ThemePreferences.ToggleTwice | src/stores/theme.ts:31-35 | toggling twice restores the effective theme |
| ThemePreferences.SetThemeStep | src/stores/theme.ts:37-39 | sets the theme and stops following the system, so the effective theme is t |
| ThemePreferences.SetUseSystemThemeStep | src/stores/theme.ts:41-46 | sets the flag and refreshes the system theme |
| ThemePreferences.AppearanceChangeStep | src/stores/theme.ts:71-74 | changes only the system theme |
| ThemePreferences.AppearanceChangeEffect | src/stores/theme.ts:71-74 | the effective theme changes only when following the system |
| ThemePreferences.Store.constructor | src/stores/theme.ts:27-29 | the initial state |
| ThemePreferences.Store.GetEffectiveTheme | src/stores/theme.ts:48-51 | EffectiveTheme of the state |
| ThemePreferences.Store.ToggleTheme | src/stores/theme.ts:31-35 | new state = ToggleStep |
| ThemePreferences.Store.SetTheme | src/stores/theme.ts:37-39 | new state = SetThemeStep |
| ThemePreferences.Store.SetUseSystemTheme | src/stores/theme.ts:41-46 | new state = SetUseSystemThemeStep |
| ThemePreferences.Store.OnAppearanceChange | src/stores/theme.ts:71-74 | new state = AppearanceChangeStep |
| ThemeContext.InitialMode | src/theme/contexts/ThemeContext.tsx:23-28 | the system scheme when following it and it is non-null, else defaultMode |
| ThemeContext.InitialModeVersusStore | src/theme/contexts/ThemeContext.tsx:23-28 | agrees with the store's rule except for a null scheme, where the context uses defaultMode and the store uses light |
| ThemeContext.ValueFor | src/theme/contexts/ThemeContext.tsx:48-60 | isDark iff the mode is dark, and the theme uses the dark scheme iff isDark |
| ThemeContext.Provider.constructor | src/theme/contexts/ThemeContext.tsx:23-28 | starts in InitialMode |
| ThemeContext.Provider.Value | src/theme/contexts/ThemeContext.tsx:75-85 | the context value of the current mode |
| ThemeContext.Provider.SetMode | src/theme/contexts/ThemeContext.tsx:62-64 | sets the mode |
| ThemeContext.Provider.ToggleMode | src/theme/contexts/ThemeContext.tsx:66-68 | flips light and dark |
| ThemeContext.Provider.ResetMode | src/theme/contexts/ThemeContext.tsx:70-73 | the same rule as the initial mode |
| ThemeContext.Provider.OnSystemSchemeChange | src/theme/contexts/ThemeContext.tsx:31-46 | adopts a non-null scheme only when following the system |
| ColorModeProvider.ColorMode | hooks/useTheme.tsx:219-224 | "system" resolves to dark iff the system scheme is dark; an explicit theme is itself |
| ColorModeProvider.Colors | hooks/useTheme.tsx:226-227 | the dark palette iff the colour mode is dark |
| ColorModeProvider.ToggleAsWrittenIgnoresCurrent | hooks/useTheme.tsx:230-238 | as written, a bare toggle always sets light, even from light |
| ColorModeProvider.Toggle | hooks/useTheme.tsx:230-238 | corrected: an argument is adopted; a bare toggle sets dark iff the current theme is light, else light |
| ColorModeProvider.ToggleFlipsFixed | hooks/useTheme.tsx:230-238 | the corrected toggle flips an explicit mode, and twice restores it |
| ColorModeProvider.Provider.constructor | hooks/useTheme.tsx:184-186 | "system", not loaded |
| ColorModeProvider.Provider.SaveEffect | hooks/useTheme.tsx:209-216 | nothing is saved before loading finishes |
| ColorModeProvider.Provider.Load | hooks/useTheme.tsx:190-206 | a saved value is adopted when the read succeeds; isLoaded is set on success and failure |
| ColorModeProvider.Provider.SetTheme | hooks/useTheme.tsx:243-244 | sets the preference, persisted only once loaded |
| ColorModeProvider.Provider.ToggleTheme | hooks/useTheme.tsx:230-238 | applies the corrected toggle, persisted only once loaded |
| ColorModeProvider.Provider.OnSystemSchemeChange | hooks/useTheme.tsx:184 | records the system scheme |
| ColorModeProvider.Provider.ColorModeNow | hooks/useTheme.tsx:219-227 | the colour mode and its palette |
| Settings.DateFormatText | src/stores/settings.ts:28 | each allowed format is a 10-character string |
| Settings.DateFormatTextInjective | src/stores/settings.ts:28 | the three formats are distinct, so dateFormat holds only one of them |
| Settings.Defaults | src/stores/settings.ts:32-42 | not premium, not tablet, "en", "DD/MM/YYYY", "default" |
| Settings.Partialize | src/stores/settings.ts:73-78 | persists exactly isTablet, language, dateFormat and textSizePreference |
| Settings.Rehydrate | src/stores/settings.ts:70-79 | restoring keeps premium and yields the persisted fields |
| Settings.PremiumNeverPersisted | src/stores/settings.ts:73-78 | premium never reaches storage, and a restored store starts without it |
| Settings.Store.constructor | src/stores/settings.ts:44-48 | the default state |
| Settings.Store.SetIsPremium | src/stores/settings.ts:50-52 | changes premium only |
| Settings.Store.SetIsTablet | src/stores/settings.ts:54-56 | changes isTablet only |
| Settings.Store.SetLanguage | src/stores/settings.ts:58-60 | changes language only |
| Settings.Store.SetDateFormat | src/stores/settings.ts:62-64 | changes dateFormat only |
| Settings.Store.SetTextSizePreference | src/stores/settings.ts:66-68 | changes textSizePreference only |
| Settings.Store.Restore | src/stores/settings.ts:70-79 | new state = Rehydrate |
| DeviceLanguage.LanguageCodePrefix | src/i18n/index.ts:48 | the code is the lower-cased prefix before the first "_" or "-" |
| DeviceLanguage.LanguageCodeOfWord | src/i18n/index.ts:48 | a word followed by "_" or "-" gives that word in lower case |
| DeviceLanguage.ExtractLanguageCode | src/i18n/index.ts:44-50 | always supported; "en" for an absent or empty locale and for unsupported codes |
| DeviceLanguage.GetIosLanguage | src/i18n/index.ts:52-72 | missing settings give "en"; a non-empty AppleLocale wins; otherwise the first of a non-empty AppleLanguages; otherwise "en"; always supported |
| DeviceLanguage.GetAndroidLanguage | src/i18n/index.ts:74-87 | a missing I18nManager gives "en"; otherwise the localeIdentifier's code |
| DeviceLanguage.GetDeviceLanguage | src/i18n/index.ts:89-96 | dispatches on the platform; always supported |
| DeviceLanguage.NoLocaleFallback | src/i18n/index.ts:52-96 | "en" when no non-empty locale string is found: absent or empty AppleLocale with absent, empty or empty-first AppleLanguages on iOS, and an absent or empty identifier on Android |
| DeviceLanguage.WordLocale | src/i18n/index.ts:44-50 | a word, a separator and a rest give the word lower-cased when it is supported, otherwise "en" |
| DeviceLanguage.Examples | src/i18n/index.ts:44-50 | "vi_VN" gives "vi", "en-US" gives "en", "ZH-Hans_CN" gives "zh", and "fr_FR" falls back to "en" |
| LegacyDeviceLanguage.LanguageOf | i18n/index.ts:18-21 | the part before the first "_", or "en" when it is empty or there is no locale |
| LegacyDeviceLanguage.DeviceLocale | i18n/index.ts:14-22 | iOS: a non-empty AppleLocale, else AppleLanguages[0] when the array is non-empty, else none; Android: localeIdentifier |
| LegacyDeviceLanguage.GetDeviceLanguage | i18n/index.ts:8-28 | "en" unless a locale is found; never contains "_" |
| LegacyDeviceLanguage.LanguageOfWord | i18n/index.ts:18 | a word before "_" is returned as is |
| LegacyDeviceLanguage.DiffersFromCurrent | i18n/index.ts:18-21 | no supported-language check and no "-" split: "fr_FR" gives "fr" and "en-US" stays "en-US" |
| LegacyDeviceLanguage.EmptyPartFallsBack | i18n/index.ts:21 | an empty prefix gives "en" |
| DateFormat.OrElse | src/utils/date.ts:48 | JavaScript `a \|\| b` on strings |
| DateFormat.GetLocale | src/utils/date.ts:47-50 | lang, else the i18n language, else "en", mapped to "en" when unknown |
| DateFormat.GetUserDateFnsFormat | src/utils/date.ts:57-60 | a known user format unchanged, else "DD/MM/YYYY" |
| DateFormat.FormatDate | src/utils/date.ts:63-78 | "" for an invalid date; MEDIUM by default |
| DateFormat.FormatDateWithUserPreference | src/utils/date.ts:81-96 | "" for an invalid date; otherwise the user format through formatDate |
| DateFormat.BucketOf | src/utils/date.ts:111-123 | 0 → today, 1 → yesterday, below 7 (negative included) → weekday, below 365 → short, else medium |
| DateFormat.BucketMonotone | src/utils/date.ts:111-123 | from one day on, an older date never lands in a more recent bucket |
| DateFormat.FormatRelativeDate | src/utils/date.ts:99-128 | the format of each bucket, with the translated "yesterday" |
| DateFormat.ParseDateSafely | src/utils/date.ts:131-141 | null for the empty string and for an invalid parse |
| DateFormat.FormatDateRange | src/utils/date.ts:144-171 | "" if either end is invalid, else start + separator + end, with " - " when the translation is empty |
| DateFormat.RangeShape | src/utils/date.ts:154-166 | the range starts with the start date and ends with the end date |
| Toast.WithId | src/components/common/Toast.tsx:171 | the toast is the draft with the fresh id |
| Toast.DefaultsApply | src/components/common/Toast.tsx:64-95 | variant "default" and duration 4000 by default; auto-dismiss only for a positive duration |
| Toast.StackingOrder | src/components/common/Toast.tsx:109-113 | offset insetsTop + 16 + 80·i and zIndex 1000 + i, both strictly increasing |
| Toast.TextMatchesIcon | src/components/common/Toast.tsx:146-152 | the text class (lines 25-38) is white iff the icon is white iff the variant is success, error or info |
| Toast.RemoveId | src/components/common/Toast.tsx:177 | keeps exactly the toasts with another id |
| Toast.RemoveIdAppend | src/components/common/Toast.tsx:177 | removal distributes over concatenation, so order is kept |
| Toast.RemoveUnknownId | src/components/common/Toast.tsx:177 | an unknown id changes nothing |
| Toast.RemoveUnknownIdIf | src/components/common/Toast.tsx:176-178 | hiding an unknown id changes nothing |
| Toast.ShowThenHide | src/components/common/Toast.tsx:169-178 | hiding a freshly shown toast restores the list |
| Toast.Manager.constructor | src/components/common/Toast.tsx:166 | no toasts |
| Toast.Manager.Show | src/components/common/Toast.tsx:169-174 | appends one toast at the end; fresh ids keep ids distinct |
| Toast.Manager.Hide | src/components/common/Toast.tsx:176-178 | removes exactly the toasts with that id |
| Toast.Manager.HideAll | src/components/common/Toast.tsx:180-182 | leaves the list empty |
| Toast.Hook.constructor | src/components/common/Toast.tsx:203-205 | the hook bound to the mounted manager, if any |
| Toast.Hook.Show | src/components/common/Toast.tsx:208-210 | forwards to the manager |
| Toast.Hook.ShowVariant | src/components/common/Toast.tsx:216-230 | success/error/warning/info show with that variant, title and description |
| Toast.Hook.Hide | src/components/common/Toast.tsx:211-213 | forwards to the manager |
| Toast.Hook.HideAll | src/components/common/Toast.tsx:214-215 | forwards to the manager |
| Sheet.SnapPixels | src/components/common/Sheet.tsx:62 | snapPx[i] = H·(1 − snapPoints[i]) |
| Sheet.SnapPixelsAntitone | src/components/common/Sheet.tsx:62 | a larger fraction gives a smaller offset |
| Sheet.IsClosestUnique | src/components/common/Sheet.tsx:107-117 | at most one index is the lowest nearest |
| Sheet.ClosestSnapIndex | src/components/common/Sheet.tsx:107-117 | the index minimising the distance, ties to the lowest index |
| Sheet.Nudge | src/components/common/Sheet.tsx:120-124 | velocity > 500 steps up, < −500 steps down, and the result stays in range |
| Sheet.OnEnd | src/components/common/Sheet.tsx:103-137 | closes iff y > snapPx[0] + 100 or velocity > 1000; otherwise springs to the nudged nearest snap point |
| Sheet.Sheet.constructor | src/components/common/Sheet.tsx:58-62 | the sheet starts off screen, at the screen height, with its snap points as pixel offsets and no onClose call yet |
| Sheet.Sheet.SnapTo | src/components/common/Sheet.tsx:68-75 | acts only for an index in range |
| Sheet.Sheet.PanUpdate | src/components/common/Sheet.tsx:100-102 | translateY = max(snapPx[last], translationY) |
| Sheet.Sheet.PanEnd | src/components/common/Sheet.tsx:103-137 | closing calls onClose once; otherwise springs to the nudged nearest point |
| Sheet.Sheet.OverlayPress | src/components/common/Sheet.tsx:157-161 | calls onClose iff closeOnOverlayPress |
| Throttle.ValueChangeStep | src/hooks/useThrottle.ts:20-44 | publishes at once when delay has passed, recording now; otherwise replaces the pending timer with one due at lastUpdate + delay |
| Throttle.ValueFireStep | src/hooks/useThrottle.ts:32-36 | the timer publishes its value and records the time |
| Throttle.ValueSettlesToLast | src/hooks/useThrottle.ts:20-44 | within one delay, a burst leaves one timer that publishes the last value |
| Throttle.CallbackCallStep | src/hooks/useThrottle.ts:66-92 | records the args; invokes iff leading and the delay has passed; otherwise, with trailing and no timer pending, schedules exactly one |
| Throttle.CallbackFireStep | src/hooks/useThrottle.ts:81-88 | calls with the latest args, then clears args and timer |
| Throttle.LeadingThenTrailing | src/hooks/useThrottle.ts:66-92 | with the defaults, a call and a quick second call run the callback with a at once and with b when the timer fires |
| Throttle.ThrottledValue.constructor | src/hooks/useThrottle.ts:15-44 | the initial value with `lastUpdateRef` at 0, then the mount effect as a change to the same value: published at the mount time, or a timer when the mount time is below the delay |
| Throttle.ThrottledValue.OnValueChange | src/hooks/useThrottle.ts:20-44 | new state = ValueChangeStep |
| Throttle.ThrottledValue.Fire | src/hooks/useThrottle.ts:32-36 | new state = ValueFireStep |
| Throttle.ThrottledValue.Unmount | src/hooks/useThrottle.ts:39-43 | no timer pending |
| Throttle.ThrottledCallback.constructor | src/hooks/useThrottle.ts:56-64 | leading and trailing default to true |
| Throttle.ThrottledCallback.Call | src/hooks/useThrottle.ts:66-92 | new state = CallbackCallStep |
| Throttle.ThrottledCallback.Fire | src/hooks/useThrottle.ts:81-88 | new state = CallbackFireStep |
| Throttle.ThrottledCallback.Unmount | src/hooks/useThrottle.ts:95-101 | no timer pending |
| Debounce.ValueChangeStep | src/hooks/useDebounce.ts:18-26 | cancels the pending timer and starts one of exactly delay; the published value stays |
| Debounce.ValueFireStep | src/hooks/useDebounce.ts:19-21 | the timer publishes its value |
| Debounce.ValueSettlesToLast | src/hooks/useDebounce.ts:18-26 | after a burst one timer is pending, due delay after the last change, and it publishes the last value |
| Debounce.CallbackCallStep | src/hooks/useDebounce.ts:48-80 | records the args; invokes iff leading and (no timer or the delay has passed); a timer of exactly delay is pending iff trailing |
| Debounce.CallbackFireStep | src/hooks/useDebounce.ts:69-76 | calls with the latest args, then clears args and timer |
| Debounce.ArgsOf | src/hooks/useDebounce.ts:54 | the arguments of a sequence of calls |
| Debounce.TrailingBurst | src/hooks/useDebounce.ts:41-80 | the defaults never invoke at call time, and the timer fires once with the last args |
| Debounce.LeadingOnlyRunsEveryCall | src/hooks/useDebounce.ts:57-68 | with trailing off no timer is ever set, so every call invokes immediately |
| Debounce.LoneCallRunsTwice | src/hooks/useDebounce.ts:57-74 | with leading and trailing both on, a lone call invokes twice with the same args |
| Debounce.DebouncedValue.constructor | src/hooks/useDebounce.ts:15-27 | the initial value published, and the mount effect's timer set to publish it again `delay` after mounting |
| Debounce.DebouncedValue.OnValueChange | src/hooks/useDebounce.ts:18-26 | new state = ValueChangeStep |
| Debounce.DebouncedValue.Fire | src/hooks/useDebounce.ts:19-21 | new state = ValueFireStep |
| Debounce.DebouncedValue.Unmount | src/hooks/useDebounce.ts:23-25 | no timer pending |
| Debounce.DebouncedCallback.constructor | src/hooks/useDebounce.ts:38-46 | leading defaults to false and trailing to true |
| Debounce.DebouncedCallback.Call | src/hooks/useDebounce.ts:48-80 | new state = CallbackCallStep |
| Debounce.DebouncedCallback.Fire | src/hooks/useDebounce.ts:69-76 | new state = CallbackFireStep |
| Debounce.DebouncedCallback.Unmount | src/hooks/useDebounce.ts:83-89 | no timer pending |
| Logger.DefaultConfig | src/utils/logger.ts:10-14 | enabled in development, minimum level debug, no prefix |
| Logger.Merge | src/utils/logger.ts:97-99 | given fields replace old ones, others stay |
| Logger.MergeLaws | src/utils/logger.ts:97-99 | merging nothing changes nothing; merging the same fields twice is merging once |
| Logger.LexLess | src/utils/logger.ts:23 | JavaScript string `<` is irreflexive |
| Logger.ShouldLogAsWrittenIsAlphabetical | src/utils/logger.ts:22-24 | as written, a level passes iff logging is on and its name is alphabetically at least the minimum's (debug < error < info < warn) |
| Logger.ShouldLogAsWrittenDropsErrors | src/utils/logger.ts:22-24 | as written, minimum "info" drops errors, and minimum "warn" drops errors and infos |
| Logger.ShouldLog | src/utils/logger.ts:22-24 | corrected: false when disabled; everything passes at minimum debug; errors always pass when enabled |
| Logger.ShouldLogMonotone | src/utils/logger.ts:22-24 | raising the minimum only drops messages; at minimum "info" the corrected filter keeps errors and the written one does not |
| Logger.FormatMessage | src/utils/logger.ts:26-30 | "[prefix] " only for a non-empty prefix, then "[timestamp] LEVEL: message" |
| Logger.FormatMessageShape | src/utils/logger.ts:26-30 | the line ends with "LEVEL: message" and starts with the bracketed prefix |
| Logger.ScopeConfig | src/utils/logger.ts:102-107 | the child name under an unnamed parent, else parent:child; other settings inherited |
| Logger.ScopeTwice | src/utils/logger.ts:102-107 | scoping twice joins the names with ":" |
| Logger.PreconfiguredLoggers | src/utils/logger.ts:111-118 | the ready-made loggers are scoped once, so their lines start with "[API] " and so on |
| Logger.Logger.constructor | src/utils/logger.ts:16-20 | the default configuration merged with the given one |
| Logger.Logger.Write | src/utils/logger.ts:32-54 | one formatted line on the level's console method iff the filter passes |
| Logger.Logger.Passthrough | src/utils/logger.ts:57-94 | log, group, table and time depend only on `enabled` |
| Logger.Logger.Configure | src/utils/logger.ts:97-99 | overwrites only the given fields |
| Logger.Logger.Scope | src/utils/logger.ts:102-107 | a fresh logger with the scoped configuration |
| Sentry.DsnUsableIff | src/utils/sentry.ts:8-14 | the DSN is usable iff it is a string with a non-white-space character |
| Sentry.BeforeSend | src/utils/sentry.ts:22-31 | drops an event iff its message contains one of the three noise strings; others pass unchanged |
| Sentry.BeforeBreadcrumb | src/utils/sentry.ts:32-41 | the same three-substring rule for breadcrumbs |
| Sentry.NoiseInsideDropped | src/utils/sentry.ts:22-41 | any message with a noise string inside it is dropped |
| Sentry.FiltersAgree | src/utils/sentry.ts:22-41 | both filters drop the same messages |
| Sentry.FilterIntegrations | src/utils/sentry.ts:20-21 | removes exactly the integrations named "AppRegistryIntegration": every other name keeps its multiplicity |
| Sentry.FilterIntegrationsAppend | src/utils/sentry.ts:20-21 | the filter keeps the order: filtering a concatenation concatenates the filters |
| Sentry.FilterIntegrationsKeepsOthers | src/utils/sentry.ts:20-21 | without that integration the list is unchanged |
| Sentry.FilterIntegrationsIdempotent | src/utils/sentry.ts:20-21 | filtering twice is filtering once |
| Sentry.SentryModule.constructor | src/utils/sentry.ts:4 | not initialised |
| Sentry.SentryModule.InitSentry | src/utils/sentry.ts:6-52 | an unusable DSN fails without calling the SDK; a throw fails with its message; otherwise the flag is set and the call succeeds |
| Sentry.SentryModule.IsSentryInitialized | src/utils/sentry.ts:54-56 | the flag |
| Analytics.InitializeStep | src/lib/analytics.ts:37-51 | the client is created; initialised iff init resolves; logging only on success |
| Analytics.PreviousScreen | src/lib/analytics.ts:66-74 | previousScreen if non-empty, else currentScreen if non-empty, else undefined |
| Analytics.TrackScreenViewStep | src/lib/analytics.ts:54-80 | when ready, tracks the view with the previous screen and sets currentScreen; otherwise nothing |
| Analytics.TrackSheetStep | src/lib/analytics.ts:82-131 | tracks sheet opens and closes; never changes currentScreen |
| Analytics.WithTimestamp | src/lib/analytics.ts:145-148 | the properties plus a timestamp |
| Analytics.TrackEventStep | src/lib/analytics.ts:133-154 | when ready, tracks the event with a timestamp |
| Analytics.SetUserPropertiesStep | src/lib/analytics.ts:156-178 | when ready, sets the people properties unless `getPeople().set` throws; identifies the user iff user_id is truthy and neither the set nor the identify throws; otherwise nothing changes |
| Analytics.ResetStep | src/lib/analytics.ts:180-196 | when ready, resets and forgets the current screen |
| Analytics.FlushStep | src/lib/analytics.ts:198-213 | flushes only when ready |
| Analytics.ReadyIffInitialized | src/lib/analytics.ts:215-217 | isReady iff initialised, given the client invariant |
| Analytics.UninitializedIgnoresCalls | src/lib/analytics.ts:54-165 | before initialisation every track and set method is a no-op (each method opens with the same guard) |
| Analytics.ScreenViewChain | src/lib/analytics.ts:66-74 | the second screen view reports the first as its previous screen |
| Analytics.ResetForgetsScreen | src/lib/analytics.ts:180-196 | after a reset the next view has no previous screen |
| Analytics.Analytics.constructor | src/lib/analytics.ts:30-35 | uninitialised, no client, no screen |
| Analytics.Analytics.Initialize | src/lib/analytics.ts:37-51 | new state = InitializeStep; a rejection is passed on |
| Analytics.Analytics.TrackScreenView | src/lib/analytics.ts:54-80 | new state = TrackScreenViewStep |
| Analytics.Analytics.TrackSheetOpen | src/lib/analytics.ts:82-106 | new state = TrackSheetStep with Open |
| Analytics.Analytics.TrackSheetClose | src/lib/analytics.ts:108-131 | new state = TrackSheetStep with Close |
| Analytics.Analytics.TrackEvent | src/lib/analytics.ts:133-154 | new state = TrackEventStep |
| Analytics.Analytics.SetUserProperties | src/lib/analytics.ts:156-178 | new state = SetUserPropertiesStep |
| Analytics.Analytics.Reset | src/lib/analytics.ts:180-196 | new state = ResetStep |
| Analytics.Analytics.Flush | src/lib/analytics.ts:198-213 | new state = FlushStep |
| Analytics.Analytics.GetIsReady | src/lib/analytics.ts:215-217 | IsReady of the state |

## Left out

- Rendering, animation and gestures are not modelled. This covers components, layouts, reanimated springs and timings, and the toast slide-in and slide-out. Only the list and snap decisions are modelled.
- Floating-point numerics are left out:
  - density-aware font sizes, line heights and typography styles;
  - `getTypographyStyleForPreference` (src/theme/hooks/useResponsiveTypography.ts:50-53), which only feeds the adjusted size to those styles;
  - the `hitRate` of the storage and class-name statistics;
  - the number accessors of the MMKV storage.

  Pixel ratio only enters as the comparison "≥ 3". Sheet offsets and class-table values are exact reals.
- Logging and console output are not modelled. This covers `enableDebugLogs` in the storage layer, the adapter's error logging, and the logger calls made by Sentry and analytics. The logger itself is modelled.
- Async I/O faults are only partly modelled:
  - AsyncStorage rejections in `src/utils/storage.ts` (the `catch` branches returning "Unknown storage error") are not modelled;
  - JSON parse failures are modelled;
  - MMKV failures are modelled as a failing adapter;
  - in `hooks/useTheme.tsx`, a failed read is modelled, but the failure of the save write is not.
- AppStorage.Storage.GetAllKeys: returns a set, because the order AsyncStorage reports keys in is unspecified.
- AppStorage.StorageManager.Clear: the source does not await its `removeItem` calls. They are modelled as running one after another, in some order of the prefixed keys.
- JavaScript objects used as records or dictionaries have distinct keys. The lookup lemmas of the class tables state this as `DistinctKeys` preconditions. Keys inherited from `Object.prototype` are not modelled.
- The spacing, border-radius, shadow, typography and colour tables come from theme files that are not part of this model. They are parameters.
- Stored strings outside the expected values are not modelled. Examples are a saved theme preference other than light/dark/system, or a date format outside the three allowed ones. The models take the typed values.
- Settings.Store.Restore and ThemeStore.Store.Rehydrate: the persistence layer's storage format is not modelled. Rehydration in `src/stores/theme.ts` is not modelled either, because that file declares no persisted subset.
- ThemeStore.Store.Rehydrate: uses the corrected rehydration, which rebuilds the theme from the restored mode (see Findings). The shallow merge as written is ThemeStore.RehydrateAsWritten, which keeps the start-up theme.
- Sheet.ClosestSnapIndex, Sheet.OnEnd, Sheet.Sheet.PanUpdate and Sheet.Sheet.PanEnd: these require at least one snap point. With an empty `snapPoints` the source indexes past the array.
- Throttle.ThrottledValue.Unmount, Throttle.ThrottledCallback.Unmount, Debounce.DebouncedValue.Unmount and Debounce.DebouncedCallback.Unmount: each state only that no timer is pending afterwards. After `clearTimeout` the source leaves the stale id in its ref. No later step reads it, except that the debounced callback's `timeoutRef` is checked for null; with trailing calls off, that ref is never set.
- Logger.Logger.Write: uses the corrected severity filter, not the alphabetical one (see Findings). Only the first console argument is modelled.
- ClassNames.ClassNameCache.Cn: the cache is transparent only for inputs whose `JSON.stringify` text determines the merge. Those are strings, finite numbers, booleans, null, undefined, and arrays and objects of those. For other inputs the source's key collides: `{}` and an object holding a function, `null` and `Infinity`, a `Date` and its ISO string. A second call can then return the first call's stale string. A BigInt input makes `JSON.stringify` throw. `ClassValue` cannot express these inputs.
- Logger.Merge, AppStorage.ConfigureStep and ClassNames.ClassNameCache.ConfigureClassName: a field given explicitly as `undefined` is treated as left out. JavaScript's spread would copy the `undefined`.
- Analytics: `trackScreenView`, `reset` and `setUserProperties` take inputs saying whether Mixpanel throws. `trackSheetOpen`, `trackSheetClose`, `trackEvent` and `flush` assume it does not throw. Each of them makes one Mixpanel call with only logging after it, so a throw there would leave the state as it was, where the model records the call.
- ToLower in `src/i18n/index.ts` is ASCII lower case only.
- i18next initialisation, the language stored through `getLanguage` (a Promise whose `.success` is never true), and bootstrap code are not modelled.
- ColorModeProvider.Provider.ToggleTheme: uses the corrected toggle. The toggle as written is ColorModeProvider.ToggleAsWritten.

## Findings

| source | as written | input that shows it | evidently intended | confidence | as-written member | corrected member |
|---|---|---|---|---|---|---|
| src/utils/logger.ts:22-24 | `level >= minLevel` compares level names as strings, ranking debug < error < info < warn | minLevel "info", level "error": the error is not logged | compare by severity: debug < info < warn < error | high; not executed | Logger.ShouldLogAsWrittenDropsErrors | Logger.ShouldLogMonotone |
| hooks/useTheme.tsx:230-238 | `toggleTheme` is memoised with an empty dependency list, so a bare toggle reads the first render's "system" | preference "light", then `toggleTheme()`: it stays "light" | flip the current preference | high; not executed | ColorModeProvider.ToggleAsWrittenIgnoresCurrent | ColorModeProvider.ToggleFlipsFixed |
| src/theme/stores/useThemeStore.ts:118-125 | `partialize` persists the mode but not the theme, and no rehydration hook rebuilds the theme | start under a light system scheme, restore mode "dark" with followSystemTheme false: mode is dark, theme is light | rebuild the theme from the restored mode | medium; not executed | ThemeStore.RehydrateAsWrittenBreaksInStep | ThemeStore.PartializeRehydrate |
