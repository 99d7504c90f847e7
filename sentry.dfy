/** Crash-reporting setup of `src/utils/sentry.ts`: the DSN check, the
    options handed to the Sentry SDK, its event, breadcrumb and
    integration filters, and the module's initialised flag.

    The SDK's `init` is a foreign call: whether it throws, and what, is a
    parameter. The environment variable is a parameter too. */
module Sentry {
  import opened Wrappers
  import opened Strings

  /** `process.env.EXPO_PUBLIC_SENTRY_DSN`: unset, set to something other
      than a string, or a string. */
  datatype EnvValue = Unset | NotAString | Text(s: string)

  /** The DSN is usable exactly when it is a string with something other
      than white space in it. */
  predicate DsnUsable(dsn: EnvValue) {
    dsn.Text? && dsn.s != [] && Trim(dsn.s) != []
  }

  lemma DsnUsableIff(dsn: EnvValue)
    ensures DsnUsable(dsn) <==> dsn.Text? && !AllWhitespace(dsn.s)
  {
    if dsn.Text? {
      TrimEmptyIffBlank(dsn.s);
    }
  }

  const MISSING_DSN_ERROR := "Sentry DSN not found in environment variables or configuration"
  const UNKNOWN_INIT_ERROR := "Unknown error during Sentry initialization"
  const SESSION_TRACKING_INTERVAL_MILLIS := 10000
  const FILTERED_INTEGRATION := "AppRegistryIntegration"

  /** The three messages the SDK reports on its own and the app drops. */
  const NOISE: seq<string> := [
    "multiple versions of the \"promise\" package",
    "Promise.allSettled",
    "AppRegistryIntegration.onRunApplication not found or invalid"
  ]

  /** What `init` throws: an `Error` with a message, or anything else. */
  datatype Thrown = ThrownError(message: string) | ThrownOther

  /** `{ success, error? }`. */
  datatype InitResult = InitResult(success: bool, error: Option<string>)

  /** The fixed part of the options handed to the SDK. */
  datatype SdkOptions = SdkOptions(dsn: string, debug: bool, enableAutoSessionTracking: bool,
                                   sessionTrackingIntervalMillis: int)

  /** `message?.includes(...)` for one of the noise messages. */
  predicate IsNoise(message: Option<string>) {
    message.Some? && (exists k | 0 <= k < |NOISE| :: Contains(message.value, NOISE[k]))
  }

  datatype Event = Event(message: Option<string>, level: string)
  datatype Breadcrumb = Breadcrumb(message: Option<string>, category: string)

  /** `beforeSend`: an event whose message mentions a noise message is
      dropped, and every other event, including one without a message,
      goes through unchanged. */
  function BeforeSend(event: Event): (r: Option<Event>)
    ensures r.None? <==> IsNoise(event.message)
    ensures r.Some? ==> r.value == event
    ensures event.message.None? ==> r == Some(event)
  {
    if IsNoise(event.message) then None else Some(event)
  }

  /** `beforeBreadcrumb`: the same rule for breadcrumbs. */
  function BeforeBreadcrumb(crumb: Breadcrumb): (r: Option<Breadcrumb>)
    ensures r.None? <==> IsNoise(crumb.message)
    ensures r.Some? ==> r.value == crumb
  {
    if IsNoise(crumb.message) then None else Some(crumb)
  }

  /** Any message with one of the noise messages inside it is dropped, as an
      event or as a breadcrumb. */
  lemma NoiseInsideDropped(before: string, k: int, after: string, level: string, category: string)
    requires 0 <= k < |NOISE|
    ensures BeforeSend(Event(Some(before + NOISE[k] + after), level)).None?
    ensures BeforeBreadcrumb(Breadcrumb(Some(before + NOISE[k] + after), category)).None?
  {
    var m := before + NOISE[k] + after;
    assert m[|before|..|before| + |NOISE[k]|] == NOISE[k];
    assert OccursAt(m, NOISE[k], |before|);
  }

  /** The two filters keep and drop the same messages. */
  lemma FiltersAgree(message: Option<string>, level: string, category: string)
    ensures BeforeSend(Event(message, level)).None? <==> BeforeBreadcrumb(Breadcrumb(message, category)).None?
  {
  }

  /** The `integrations` option: the default integrations minus every one
      named "AppRegistryIntegration", in their order. */
  function FilterIntegrations(names: seq<string>): (r: seq<string>)
    ensures |r| <= |names|
    ensures forall n :: n in r <==> n in names && n != FILTERED_INTEGRATION
    ensures multiset(r) == multiset(names)[FILTERED_INTEGRATION := 0]
  {
    if names == [] then []
    else
      assert names == [names[0]] + names[1..];
      if names[0] == FILTERED_INTEGRATION then FilterIntegrations(names[1..])
      else [names[0]] + FilterIntegrations(names[1..])
  }

  /** Filtering keeps the order: the filter of a concatenation is the
      concatenation of the filters. */
  lemma {:induction false} FilterIntegrationsAppend(a: seq<string>, b: seq<string>)
    ensures FilterIntegrations(a + b) == FilterIntegrations(a) + FilterIntegrations(b)
  {
    if a != [] {
      assert (a + b)[1..] == a[1..] + b;
      FilterIntegrationsAppend(a[1..], b);
    } else {
      assert a + b == b;
    }
  }

  /** Without that integration among them, the defaults are kept as they are. */
  lemma {:induction false} FilterIntegrationsKeepsOthers(names: seq<string>)
    requires FILTERED_INTEGRATION !in names
    ensures FilterIntegrations(names) == names
  {
    if names != [] {
      FilterIntegrationsKeepsOthers(names[1..]);
      assert names == [names[0]] + names[1..];
    }
  }

  /** Filtering twice is filtering once. */
  lemma FilterIntegrationsIdempotent(names: seq<string>)
    ensures FilterIntegrations(FilterIntegrations(names)) == FilterIntegrations(names)
  {
    FilterIntegrationsKeepsOthers(FilterIntegrations(names));
  }

  /** The module's state: whether initialisation has succeeded, and the
      options of each `init` call made. */
  class SentryModule {
    var isInitialized: bool
    var initCalls: seq<SdkOptions>

    constructor ()
      ensures !isInitialized && initCalls == []
    {
      isInitialized := false;
      initCalls := [];
    }

    /** `initSentry()`. Without a usable DSN the SDK is not called and the
        result carries the missing-DSN error. Otherwise the SDK is called
        once; if it throws, the result carries the error's message (or the
        generic one) and the flag is left alone, and if not, the flag is
        set and the result is a success. */
    method InitSentry(dsn: EnvValue, isDev: bool, initThrows: Option<Thrown>) returns (r: InitResult)
      modifies this
      ensures !DsnUsable(dsn) ==> r == InitResult(false, Some(MISSING_DSN_ERROR)) && initCalls == old(initCalls)
      ensures DsnUsable(dsn) ==> initCalls == old(initCalls) + [SdkOptions(dsn.s, isDev, true, SESSION_TRACKING_INTERVAL_MILLIS)]
      ensures r.success <==> DsnUsable(dsn) && initThrows.None?
      ensures r.success ==> r.error.None?
      ensures DsnUsable(dsn) && initThrows == Some(ThrownOther) ==> r.error == Some(UNKNOWN_INIT_ERROR)
      ensures DsnUsable(dsn) && initThrows.Some? && initThrows.value.ThrownError? ==>
                r.error == Some(initThrows.value.message)
      ensures isInitialized == (old(isInitialized) || r.success)
    {
      if !DsnUsable(dsn) {
        return InitResult(false, Some(MISSING_DSN_ERROR));
      }
      initCalls := initCalls + [SdkOptions(dsn.s, isDev, true, SESSION_TRACKING_INTERVAL_MILLIS)];
      if initThrows.Some? {
        var message := if initThrows.value.ThrownError? then initThrows.value.message else UNKNOWN_INIT_ERROR;
        return InitResult(false, Some(message));
      }
      isInitialized := true;
      r := InitResult(true, None);
    }

    /** `isSentryInitialized()`. */
    method IsSentryInitialized() returns (r: bool)
      ensures r == isInitialized
    {
      r := isInitialized;
    }
  }
}
