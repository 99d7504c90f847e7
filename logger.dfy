/** The development logger of `src/utils/logger.ts`: its configuration,
    the level filter, the message format, scoped loggers and the console
    calls it makes.

    The console is an output log: each console call the logger makes is
    appended as an `Entry` of the console method and its first argument.
    The remaining arguments are passed through untouched and are not
    modelled. The timestamp of `new Date().toISOString()` is a parameter,
    and `__DEV__` is a parameter of the default configuration. */
module Logger {
  import opened Wrappers
  import opened Strings

  datatype Level = Debug | Info | Warn | Error

  /** The level's name, as the configuration and the filter spell it. */
  function LevelName(l: Level): string {
    match l
    case Debug => "debug"
    case Info => "info"
    case Warn => "warn"
    case Error => "error"
  }

  /** The label a message carries. */
  function LevelLabel(l: Level): string {
    match l
    case Debug => "DEBUG"
    case Info => "INFO"
    case Warn => "WARN"
    case Error => "ERROR"
  }

  datatype Config = Config(enabled: bool, minLevel: Level, prefix: string)

  /** `Partial<LoggerConfig>`: a field is given or left out. */
  datatype PartialConfig = PartialConfig(enabled: Option<bool>, minLevel: Option<Level>, prefix: Option<string>)

  /** The initial configuration: enabled in development, every level, no prefix. */
  function DefaultConfig(isDev: bool): (c: Config)
    ensures c.enabled == isDev && c.minLevel == Debug && c.prefix == []
  {
    Config(isDev, Debug, [])
  }

  /** `{ ...config, ...partial }`: the given fields replace the old ones,
      and the others stay. */
  function Merge(c: Config, p: PartialConfig): (r: Config)
    ensures r.enabled == p.enabled.GetOr(c.enabled)
    ensures r.minLevel == p.minLevel.GetOr(c.minLevel)
    ensures r.prefix == p.prefix.GetOr(c.prefix)
  {
    Config(p.enabled.GetOr(c.enabled), p.minLevel.GetOr(c.minLevel), p.prefix.GetOr(c.prefix))
  }

  /** Merging nothing changes nothing, and merging the same fields twice is
      merging them once. */
  lemma MergeLaws(c: Config, p: PartialConfig)
    ensures Merge(c, PartialConfig(None, None, None)) == c
    ensures Merge(Merge(c, p), p) == Merge(c, p)
  {
  }

  /** JavaScript's `<` on strings: lexicographic order of the characters. */
  function LexLess(a: string, b: string): (r: bool)
    ensures r ==> a != b
    decreases |a|
  {
    if a == [] then b != []
    else if b == [] then false
    else if a[0] != b[0] then a[0] < b[0]
    else LexLess(a[1..], b[1..])
  }

  /** The order the level names have as strings: "debug" < "error" <
      "info" < "warn". */
  function LexRank(l: Level): nat {
    match l
    case Debug => 0
    case Error => 1
    case Info => 2
    case Warn => 3
  }

  /** How severe a level is: debug < info < warn < error. */
  function Severity(l: Level): nat {
    match l
    case Debug => 0
    case Info => 1
    case Warn => 2
    case Error => 3
  }

  /** `shouldLog(level)` as written: `level >= minLevel` compares the
      level names as strings. */
  predicate ShouldLogAsWritten(c: Config, level: Level) {
    c.enabled && !LexLess(LevelName(level), LevelName(c.minLevel))
  }

  /** The string comparison ranks the levels alphabetically, not by
      severity. */
  lemma ShouldLogAsWrittenIsAlphabetical(c: Config, level: Level)
    ensures ShouldLogAsWritten(c, level) <==> c.enabled && LexRank(level) >= LexRank(c.minLevel)
  {
    if level == c.minLevel {
      assert !LexLess(LevelName(level), LevelName(c.minLevel));
    }
  }

  /** With minimum level "info", errors are dropped, and with minimum
      level "warn", errors and infos are. */
  lemma ShouldLogAsWrittenDropsErrors(prefix: string)
    ensures !ShouldLogAsWritten(Config(true, Info, prefix), Error)
    ensures !ShouldLogAsWritten(Config(true, Warn, prefix), Error)
    ensures !ShouldLogAsWritten(Config(true, Warn, prefix), Info)
  {
    ShouldLogAsWrittenIsAlphabetical(Config(true, Info, prefix), Error);
    ShouldLogAsWrittenIsAlphabetical(Config(true, Warn, prefix), Error);
    ShouldLogAsWrittenIsAlphabetical(Config(true, Warn, prefix), Info);
  }

  /** The filter as intended: logging is on and the level is at least as
      severe as the minimum. */
  function ShouldLog(c: Config, level: Level): (r: bool)
    ensures !c.enabled ==> !r
    ensures c.enabled && c.minLevel == Debug ==> r
    ensures r && level == Debug ==> c.minLevel == Debug
    ensures c.enabled && level == Error ==> r
  {
    c.enabled && Severity(level) >= Severity(c.minLevel)
  }

  /** Raising the minimum level only ever drops messages, and the two
      filters agree except when a level outranks the minimum in one order
      and not the other; with minimum "info" they disagree on errors. */
  lemma ShouldLogMonotone(c: Config, level: Level, higher: Level)
    requires Severity(c.minLevel) <= Severity(higher)
    ensures ShouldLog(c.(minLevel := higher), level) ==> ShouldLog(c, level)
    ensures ShouldLog(Config(true, Info, c.prefix), Error) && !ShouldLogAsWritten(Config(true, Info, c.prefix), Error)
  {
    ShouldLogAsWrittenDropsErrors(c.prefix);
  }

  /** `formatMessage(level, message)`: "[prefix] " when there is a prefix,
      then "[timestamp] LEVEL: message". */
  function FormatMessage(prefix: string, timestamp: string, tag: string, message: string): (r: string)
    ensures prefix == [] ==> r == "[" + timestamp + "] " + tag + ": " + message
    ensures prefix != [] ==> r == "[" + prefix + "] " + FormatMessage([], timestamp, tag, message)
    decreases |prefix|
  {
    var p := if prefix != [] then "[" + prefix + "] " else "";
    p + "[" + timestamp + "] " + tag + ": " + message
  }

  /** The message and its label are always the end of the formatted line,
      and a non-empty prefix is always its start. */
  lemma FormatMessageShape(prefix: string, timestamp: string, tag: string, message: string)
    ensures var r := FormatMessage(prefix, timestamp, tag, message);
            var tail := tag + ": " + message;
            && |tail| <= |r| && r[|r| - |tail|..] == tail
            && (prefix != [] ==> StartsWith(r, "[" + prefix + "] "))
            && (prefix == [] ==> StartsWith(r, "["))
  {
    var r := FormatMessage(prefix, timestamp, tag, message);
    var tail := tag + ": " + message;
    var p := if prefix != [] then "[" + prefix + "] " else "";
    assert r == (p + "[" + timestamp + "] ") + tail;
    assert r[|r| - |tail|..] == tail;
    assert r[..|p|] == p;
    assert r[..|p| + 1] == p + "[";
  }

  /** `scope(prefix)`: a child logger with the parent's settings, whose
      prefix is the child's name under an unnamed parent and
      "parent:child" otherwise. */
  function ScopeConfig(c: Config, child: string): (r: Config)
    ensures r.enabled == c.enabled && r.minLevel == c.minLevel
    ensures c.prefix == [] ==> r.prefix == child
    ensures c.prefix != [] ==> r.prefix == c.prefix + ":" + child
  {
    c.(prefix := if c.prefix != [] then c.prefix + ":" + child else child)
  }

  /** Scoping twice from an unnamed logger joins the names with ":". */
  lemma ScopeTwice(c: Config, a: string, b: string)
    requires c.prefix == [] && a != []
    ensures ScopeConfig(ScopeConfig(c, a), b).prefix == a + ":" + b
    ensures ScopeConfig(ScopeConfig(c, a), b).minLevel == c.minLevel
  {
  }

  /** The pre-configured loggers are the default one scoped once, so
      their messages start with "[DB] ", "[API] " and so on. */
  lemma PreconfiguredLoggers(isDev: bool, timestamp: string, tag: string, message: string)
    ensures ScopeConfig(DefaultConfig(isDev), "DB").prefix == "DB"
    ensures ScopeConfig(DefaultConfig(isDev), "Storage").prefix == "Storage"
    ensures FormatMessage(ScopeConfig(DefaultConfig(isDev), "API").prefix, timestamp, tag, message)
            == "[API] " + FormatMessage([], timestamp, tag, message)
  {
  }

  /** The console method a call goes to. */
  datatype Channel = ConsoleLog | ConsoleInfo | ConsoleWarn | ConsoleError
                   | ConsoleGroup | ConsoleGroupEnd | ConsoleTable | ConsoleTime | ConsoleTimeEnd

  /** The console method of each level: debug messages go to `console.log`. */
  function LevelChannel(l: Level): Channel {
    match l
    case Debug => ConsoleLog
    case Info => ConsoleInfo
    case Warn => ConsoleWarn
    case Error => ConsoleError
  }

  datatype Entry = Entry(channel: Channel, text: string)

  class Logger {
    var config: Config
    /** The console calls made so far. */
    var console: seq<Entry>

    /** `new Logger(config?)`: the default configuration with the given
        fields. */
    constructor (isDev: bool, config: Option<PartialConfig>)
      ensures config.None? ==> this.config == DefaultConfig(isDev)
      ensures config.Some? ==> this.config == Merge(DefaultConfig(isDev), config.value)
      ensures console == []
    {
      var initial := DefaultConfig(isDev);
      this.config := if config.Some? then Merge(initial, config.value) else initial;
      console := [];
    }

    /** `debug`, `info`, `warn` and `error`: one formatted line on the
        level's console method when the filter lets it through. */
    method Write(level: Level, message: string, timestamp: string)
      modifies this`console
      ensures ShouldLog(config, level) ==>
                console == old(console) + [Entry(LevelChannel(level), FormatMessage(config.prefix, timestamp, LevelLabel(level), message))]
      ensures !ShouldLog(config, level) ==> console == old(console)
    {
      if ShouldLog(config, level) {
        var line := FormatMessage(config.prefix, timestamp, LevelLabel(level), message);
        console := console + [Entry(LevelChannel(level), line)];
      }
    }

    /** `log`, `group`, `groupEnd`, `table`, `time` and `timeEnd`: passed to
        the console unformatted whenever logging is on, whatever the
        minimum level. */
    method Passthrough(channel: Channel, text: string)
      requires channel !in {ConsoleInfo, ConsoleWarn, ConsoleError}
      modifies this`console
      ensures config.enabled ==> console == old(console) + [Entry(channel, text)]
      ensures !config.enabled ==> console == old(console)
    {
      if config.enabled {
        console := console + [Entry(channel, text)];
      }
    }

    method Configure(p: PartialConfig)
      modifies this`config
      ensures config == Merge(old(config), p)
    {
      config := Merge(config, p);
    }

    method Scope(child: string) returns (scoped: Logger)
      ensures fresh(scoped)
      ensures scoped.config == ScopeConfig(config, child) && scoped.console == []
    {
      var p := if config.prefix != [] then config.prefix + ":" + child else child;
      scoped := new Logger(config.enabled, Some(PartialConfig(Some(config.enabled), Some(config.minLevel), Some(p))));
    }
  }
}
