/** The product analytics wrapper of `src/lib/analytics.ts`: a Mixpanel
    client behind an initialised guard, screen tracking with the previous
    screen, sheet and custom events, user properties, reset and flush.

    What the wrapper hands to Mixpanel is recorded in the state: tracked
    events, identified users, people-property updates, resets and
    flushes. `Date.now()` is the `now` argument. Whether Mixpanel's
    `init` rejects, and whether a call into it throws, are parameters;
    the logger output around them is not modelled. */
module Analytics {
  import opened Wrappers

  /** A property value sent with an event. */
  datatype Value = Text(s: string) | Number(n: int) | Flag(b: bool)

  /** The Mixpanel instance as configured. */
  datatype Client = Client(token: string, trackAutomaticEvents: bool, loggingEnabled: bool)

  datatype SheetAction = Open | Close

  /** What is handed to `mixpanel.track`. */
  datatype Tracked =
    | ScreenView(screenName: string, screenClass: string, previousScreen: Option<string>, timestamp: int)
    | SheetEvent(sheetName: string, action: SheetAction, trigger: Option<string>, timestamp: int)
    | CustomEvent(eventName: string, properties: map<string, Value>)

  /** `UserProperties`: an optional `user_id` and any other properties. */
  datatype UserProperties = UserProperties(userId: Option<string>, others: map<string, Value>)

  datatype Config = Config(token: string, trackAutomaticEvents: Option<bool>, enableLogging: Option<bool>)

  datatype State = State(
    mixpanel: Option<Client>,
    isInitialized: bool,
    currentScreen: Option<string>,
    tracked: seq<Tracked>,
    identified: seq<string>,
    peopleSets: seq<UserProperties>,
    resets: nat,
    flushes: nat)

  function Initial(): State {
    State(None, false, None, [], [], [], 0, 0)
  }

  /** Once initialised there is always a client. */
  predicate Valid(s: State) {
    s.isInitialized ==> s.mixpanel.Some?
  }

  /** `isReady`, which is also the guard every tracking method starts
      with: initialised and holding a client. */
  predicate IsReady(s: State) {
    s.isInitialized && s.mixpanel.Some?
  }

  /** `initialize(config)`. The client is created first; if its `init`
      rejects, the error is passed on and the wrapper stays uninitialised,
      and otherwise logging is switched on when asked and the wrapper is
      initialised. */
  function InitializeStep(s: State, config: Config, initRejects: bool): (r: State)
    ensures r.mixpanel.Some? && r.mixpanel.value.token == config.token
    ensures r.mixpanel.value.trackAutomaticEvents == config.trackAutomaticEvents.GetOr(true)
    ensures r.isInitialized <==> s.isInitialized || !initRejects
    ensures !initRejects ==> r.mixpanel.value.loggingEnabled == (config.enableLogging == Some(true))
    ensures initRejects ==> !r.mixpanel.value.loggingEnabled
    ensures Valid(r)
    ensures r.currentScreen == s.currentScreen && r.tracked == s.tracked
  {
    var client := Client(config.token, config.trackAutomaticEvents.GetOr(true), false);
    if initRejects then s.(mixpanel := Some(client))
    else s.(mixpanel := Some(client.(loggingEnabled := config.enableLogging == Some(true))), isInitialized := true)
  }

  /** `previousScreen || this.currentScreen || undefined`: an empty name
      counts as none. */
  function PreviousScreen(previousScreen: Option<string>, currentScreen: Option<string>): (r: Option<string>)
    ensures r.Some? ==> r.value != []
    ensures previousScreen.Some? && previousScreen.value != [] ==> r == previousScreen
    ensures !(previousScreen.Some? && previousScreen.value != []) ==>
              r == (if currentScreen.Some? && currentScreen.value != [] then currentScreen else None)
  {
    if previousScreen.Some? && previousScreen.value != [] then previousScreen
    else if currentScreen.Some? && currentScreen.value != [] then currentScreen
    else None
  }

  /** `trackScreenView(screenName, previousScreen?)`: when active, one
      screen view is tracked and the screen becomes the current one,
      unless Mixpanel throws, which changes nothing. */
  function TrackScreenViewStep(s: State, screenName: string, previousScreen: Option<string>, now: int, throws: bool): (r: State)
    ensures !IsReady(s) || throws ==> r == s
    ensures IsReady(s) && !throws ==>
              r == s.(tracked := s.tracked + [ScreenView(screenName, screenName, PreviousScreen(previousScreen, s.currentScreen), now)],
                      currentScreen := Some(screenName))
  {
    if !IsReady(s) || throws then s
    else s.(tracked := s.tracked + [ScreenView(screenName, screenName, PreviousScreen(previousScreen, s.currentScreen), now)],
            currentScreen := Some(screenName))
  }

  /** `trackSheetOpen` and `trackSheetClose`: one sheet event when active;
      a close carries no trigger. The current screen never moves. */
  function TrackSheetStep(s: State, sheetName: string, action: SheetAction, trigger: Option<string>, now: int): (r: State)
    ensures r.currentScreen == s.currentScreen && r.isInitialized == s.isInitialized && r.mixpanel == s.mixpanel
    ensures !IsReady(s) ==> r == s
    ensures IsReady(s) ==>
              r.tracked == s.tracked + [SheetEvent(sheetName, action, if action == Open then trigger else None, now)]
  {
    if !IsReady(s) then s
    else s.(tracked := s.tracked + [SheetEvent(sheetName, action, if action == Open then trigger else None, now)])
  }

  /** `{ ...properties, timestamp: Date.now() }`: the timestamp always
      wins over a property of that name. */
  function WithTimestamp(properties: Option<map<string, Value>>, now: int): (r: map<string, Value>)
    ensures "timestamp" in r && r["timestamp"] == Number(now)
    ensures forall k | k in r && k != "timestamp" :: properties.Some? && k in properties.value && r[k] == properties.value[k]
    ensures properties.Some? ==> forall k | k in properties.value && k != "timestamp" :: k in r
  {
    properties.GetOr(map[])["timestamp" := Number(now)]
  }

  /** `trackEvent(eventName, properties?)`. */
  function TrackEventStep(s: State, eventName: string, properties: Option<map<string, Value>>, now: int): (r: State)
    ensures r.currentScreen == s.currentScreen
    ensures !IsReady(s) ==> r == s
    ensures IsReady(s) ==> r.tracked == s.tracked + [CustomEvent(eventName, WithTimestamp(properties, now))]
  {
    if !IsReady(s) then s
    else s.(tracked := s.tracked + [CustomEvent(eventName, WithTimestamp(properties, now))])
  }

  /** `setUserProperties(properties)`: the properties are set on the
      person, and then the user is identified exactly when `user_id` is a
      non-empty string. `setThrows` and `identifyThrows` say whether
      `getPeople().set` or `identify` throws: a throwing `set` skips the
      identify, and either throw is caught. */
  function SetUserPropertiesStep(s: State, properties: UserProperties, setThrows: bool, identifyThrows: bool): (r: State)
    ensures !IsReady(s) || setThrows ==> r == s
    ensures IsReady(s) && !setThrows ==> r.peopleSets == s.peopleSets + [properties]
    ensures IsReady(s) && !setThrows && !identifyThrows && properties.userId.Some? && properties.userId.value != [] ==>
              r.identified == s.identified + [properties.userId.value]
    ensures setThrows || identifyThrows || !(properties.userId.Some? && properties.userId.value != []) ==>
              r.identified == s.identified
    ensures r.currentScreen == s.currentScreen && r.tracked == s.tracked
  {
    if !IsReady(s) || setThrows then s
    else
      var s1 := s.(peopleSets := s.peopleSets + [properties]);
      if properties.userId.Some? && properties.userId.value != [] && !identifyThrows then
        s1.(identified := s1.identified + [properties.userId.value])
      else s1
  }

  /** `reset()`: when active, Mixpanel is reset and there is no current
      screen any more, unless Mixpanel throws. */
  function ResetStep(s: State, throws: bool): (r: State)
    ensures !IsReady(s) || throws ==> r == s
    ensures IsReady(s) && !throws ==> r == s.(resets := s.resets + 1, currentScreen := None)
  {
    if !IsReady(s) || throws then s else s.(resets := s.resets + 1, currentScreen := None)
  }

  /** `flush()`. */
  function FlushStep(s: State): (r: State)
    ensures !IsReady(s) ==> r == s
    ensures IsReady(s) ==> r == s.(flushes := s.flushes + 1)
  {
    if !IsReady(s) then s else s.(flushes := s.flushes + 1)
  }

  /** Under the invariant the client guard never fires after
      initialisation, so being ready is being initialised. */
  lemma ReadyIffInitialized(s: State)
    requires Valid(s)
    ensures IsReady(s) <==> s.isInitialized
  {
  }

  /** Before initialisation every tracking call is ignored. */
  lemma UninitializedIgnoresCalls(s: State, name: string, prev: Option<string>, trigger: Option<string>,
                                  props: Option<map<string, Value>>, user: UserProperties, now: int, throws: bool,
                                  identifyThrows: bool)
    requires !s.isInitialized
    ensures TrackScreenViewStep(s, name, prev, now, throws) == s
    ensures TrackSheetStep(s, name, Open, trigger, now) == s && TrackSheetStep(s, name, Close, trigger, now) == s
    ensures TrackEventStep(s, name, props, now) == s
    ensures SetUserPropertiesStep(s, user, throws, identifyThrows) == s
    ensures ResetStep(s, throws) == s && FlushStep(s) == s
  {
  }

  /** Two screen views in a row: the second reports the first as its
      previous screen, unless it names one itself. */
  lemma ScreenViewChain(s: State, first: string, second: string, t1: int, t2: int)
    requires IsReady(s) && first != []
    ensures var s1 := TrackScreenViewStep(s, first, None, t1, false);
            var s2 := TrackScreenViewStep(s1, second, None, t2, false);
            && s2.currentScreen == Some(second)
            && s2.tracked[|s2.tracked| - 1] == ScreenView(second, second, Some(first), t2)
  {
  }

  /** After a reset the next screen view has no previous screen. */
  lemma ResetForgetsScreen(s: State, name: string, now: int)
    requires IsReady(s)
    ensures var r := TrackScreenViewStep(ResetStep(s, false), name, None, now, false);
            r.tracked[|r.tracked| - 1].previousScreen.None?
  {
  }

  class Analytics {
    var mixpanel: Option<Client>
    var isInitialized: bool
    var currentScreen: Option<string>
    var tracked: seq<Tracked>
    var identified: seq<string>
    var peopleSets: seq<UserProperties>
    var resets: nat
    var flushes: nat

    function Snapshot(): State
      reads this
    {
      State(mixpanel, isInitialized, currentScreen, tracked, identified, peopleSets, resets, flushes)
    }

    constructor ()
      ensures Snapshot() == Initial()
    {
      mixpanel := None;
      isInitialized := false;
      currentScreen := None;
      tracked := [];
      identified := [];
      peopleSets := [];
      resets := 0;
      flushes := 0;
    }

    /** The error `init` rejects with, if it does, is passed back to the
        caller. */
    method Initialize(config: Config, initRejection: Option<string>) returns (r: Outcome<string>)
      modifies this
      ensures Snapshot() == InitializeStep(old(Snapshot()), config, initRejection.Some?)
      ensures initRejection.Some? ==> r == Fail(initRejection.value)
      ensures initRejection.None? ==> r == Pass
    {
      mixpanel := Some(Client(config.token, config.trackAutomaticEvents.GetOr(true), false));
      if initRejection.Some? {
        return Fail(initRejection.value);
      }
      if config.enableLogging == Some(true) {
        mixpanel := Some(mixpanel.value.(loggingEnabled := true));
      }
      isInitialized := true;
      r := Pass;
    }

    method TrackScreenView(screenName: string, previousScreen: Option<string>, now: int, throws: bool)
      modifies this
      ensures Snapshot() == TrackScreenViewStep(old(Snapshot()), screenName, previousScreen, now, throws)
    {
      if !isInitialized || mixpanel.None? {
        return;
      }
      if !throws {
        var event := ScreenView(screenName, screenName, PreviousScreen(previousScreen, currentScreen), now);
        tracked := tracked + [event];
        currentScreen := Some(screenName);
      }
    }

    method TrackSheetOpen(sheetName: string, trigger: Option<string>, now: int)
      modifies this
      ensures Snapshot() == TrackSheetStep(old(Snapshot()), sheetName, Open, trigger, now)
    {
      if !isInitialized || mixpanel.None? {
        return;
      }
      tracked := tracked + [SheetEvent(sheetName, Open, trigger, now)];
    }

    method TrackSheetClose(sheetName: string, now: int)
      modifies this
      ensures Snapshot() == TrackSheetStep(old(Snapshot()), sheetName, Close, None, now)
    {
      if !isInitialized || mixpanel.None? {
        return;
      }
      tracked := tracked + [SheetEvent(sheetName, Close, None, now)];
    }

    method TrackEvent(eventName: string, properties: Option<map<string, Value>>, now: int)
      modifies this
      ensures Snapshot() == TrackEventStep(old(Snapshot()), eventName, properties, now)
    {
      if !isInitialized || mixpanel.None? {
        return;
      }
      tracked := tracked + [CustomEvent(eventName, WithTimestamp(properties, now))];
    }

    method SetUserProperties(properties: UserProperties, setThrows: bool, identifyThrows: bool)
      modifies this
      ensures Snapshot() == SetUserPropertiesStep(old(Snapshot()), properties, setThrows, identifyThrows)
    {
      if !isInitialized || mixpanel.None? {
        return;
      }
      if setThrows {
        return;
      }
      peopleSets := peopleSets + [properties];
      if properties.userId.Some? && properties.userId.value != [] && !identifyThrows {
        identified := identified + [properties.userId.value];
      }
    }

    method Reset(throws: bool)
      modifies this
      ensures Snapshot() == ResetStep(old(Snapshot()), throws)
    {
      if !isInitialized || mixpanel.None? {
        return;
      }
      if !throws {
        resets := resets + 1;
        currentScreen := None;
      }
    }

    method Flush()
      modifies this
      ensures Snapshot() == FlushStep(old(Snapshot()))
    {
      if !isInitialized || mixpanel.None? {
        return;
      }
      flushes := flushes + 1;
    }

    method GetIsReady() returns (r: bool)
      ensures r == IsReady(Snapshot())
    {
      r := isInitialized && mixpanel.Some?;
    }
  }
}
