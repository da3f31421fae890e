/** The debug logger (portfolio/src/utils/debug.ts): a level filter, a bounded in-memory
    log buffer that keeps the newest entries, console formatting and partial config updates. */
module DebugLog {
  import opened Base

  datatype Level = ErrorLevel | WarnLevel | InfoLevel | DebugLevel

  /** The level's index in `['error', 'warn', 'info', 'debug']`. */
  function Rank(l: Level): nat {
    match l
    case ErrorLevel => 0
    case WarnLevel => 1
    case InfoLevel => 2
    case DebugLevel => 3
  }

  /** `level.toUpperCase()` of the level's name. */
  function UpperName(l: Level): string {
    match l
    case ErrorLevel => "ERROR"
    case WarnLevel => "WARN"
    case InfoLevel => "INFO"
    case DebugLevel => "DEBUG"
  }

  datatype DebugConfig = DebugConfig(
    enabled: bool, level: Level, showTimestamps: bool, showComponentName: bool,
    logToConsole: bool, logToStorage: bool)

  /** `defaultDebugConfig`; `enabled` is whether `NODE_ENV` is `'development'`. */
  function DefaultDebugConfig(isDevelopment: bool): DebugConfig {
    DebugConfig(isDevelopment, DebugLevel, true, true, true, false)
  }

  /** A `Partial<DebugConfig>`: `None` is a field left out. */
  datatype PartialConfig = PartialConfig(
    enabled: Option<bool>, level: Option<Level>, showTimestamps: Option<bool>,
    showComponentName: Option<bool>, logToConsole: Option<bool>, logToStorage: Option<bool>)

  function Pick<T>(update: Option<T>, current: T): T {
    if update.Some? then update.value else current
  }

  /** `{ ...config, ...update }`. */
  function Merge(c: DebugConfig, p: PartialConfig): DebugConfig {
    DebugConfig(
      Pick(p.enabled, c.enabled), Pick(p.level, c.level),
      Pick(p.showTimestamps, c.showTimestamps), Pick(p.showComponentName, c.showComponentName),
      Pick(p.logToConsole, c.logToConsole), Pick(p.logToStorage, c.logToStorage))
  }

  /** `updateConfig` overrides exactly the fields supplied: merging an empty update changes
      nothing, and merging a full one replaces everything. */
  lemma MergeOverridesSupplied(c: DebugConfig, p: PartialConfig)
    ensures p == PartialConfig(None, None, None, None, None, None) ==> Merge(c, p) == c
    ensures p.enabled.Some? ==> Merge(c, p).enabled == p.enabled.value
    ensures p.enabled.None? ==> Merge(c, p).enabled == c.enabled
    ensures p.level.Some? ==> Merge(c, p).level == p.level.value
    ensures p.level.None? ==> Merge(c, p).level == c.level
    ensures p.showTimestamps.Some? ==> Merge(c, p).showTimestamps == p.showTimestamps.value
    ensures p.showTimestamps.None? ==> Merge(c, p).showTimestamps == c.showTimestamps
    ensures p.showComponentName.Some? ==> Merge(c, p).showComponentName == p.showComponentName.value
    ensures p.showComponentName.None? ==> Merge(c, p).showComponentName == c.showComponentName
    ensures p.logToConsole.Some? ==> Merge(c, p).logToConsole == p.logToConsole.value
    ensures p.logToConsole.None? ==> Merge(c, p).logToConsole == c.logToConsole
    ensures p.logToStorage.Some? ==> Merge(c, p).logToStorage == p.logToStorage.value
    ensures p.logToStorage.None? ==> Merge(c, p).logToStorage == c.logToStorage
    ensures (forall f: DebugConfig :: Merge(f, p) == Merge(c, p)) <==>
              p.enabled.Some? && p.level.Some? && p.showTimestamps.Some?
              && p.showComponentName.Some? && p.logToConsole.Some? && p.logToStorage.Some?
  {
    if forall f: DebugConfig :: Merge(f, p) == Merge(c, p) {
      var flipped := DebugConfig(!c.enabled, if c.level == ErrorLevel then DebugLevel else ErrorLevel,
                                 !c.showTimestamps, !c.showComponentName, !c.logToConsole, !c.logToStorage);
      assert Merge(flipped, p) == Merge(c, p);
    }
  }

  /** `shouldLog`: enabled, and the message's level is no more verbose than the configured one. */
  function ShouldLog(c: DebugConfig, level: Level): bool {
    c.enabled && Rank(level) <= Rank(c.level)
  }

  /** A disabled logger lets nothing through; an enabled one always lets errors through,
      and a level that passes lets every less verbose level pass too. */
  lemma ShouldLogFilter(c: DebugConfig, level: Level, other: Level)
    ensures !c.enabled ==> !ShouldLog(c, level)
    ensures c.enabled ==> ShouldLog(c, ErrorLevel)
    ensures c.enabled ==> ShouldLog(c, c.level)
    ensures ShouldLog(c, level) && Rank(other) <= Rank(level) ==> ShouldLog(c, other)
    ensures c.enabled && c.level == DebugLevel ==> ShouldLog(c, level)
  {
  }

  /** The default configuration passes every level in development and none elsewhere, and
      never stores: with it the buffer stays empty. */
  lemma DefaultConfigNeverStores(isDevelopment: bool, level: Level)
    ensures ShouldLog(DefaultDebugConfig(isDevelopment), level) <==> isDevelopment
    ensures !DefaultDebugConfig(isDevelopment).logToStorage
  {
  }

  datatype LogEntry = LogEntry(timestamp: string, level: Level, component: string, message: string)

  const MaxLogs: nat := 100

  /** The newest `MaxLogs` entries of a history, in order. */
  function Newest(h: seq<LogEntry>): (r: seq<LogEntry>)
    ensures |r| <= MaxLogs
  {
    if |h| > MaxLogs then h[|h| - MaxLogs..] else h
  }

  /** `logs.push(entry)` followed by `logs = logs.slice(-100)` when over the limit. */
  function Retain(logs: seq<LogEntry>, e: LogEntry): seq<LogEntry> {
    var pushed := logs + [e];
    if |pushed| > MaxLogs then pushed[|pushed| - MaxLogs..] else pushed
  }

  /** The buffer never exceeds the limit, the new entry is always last, nothing is dropped
      below the limit, and at the limit exactly the oldest entry is dropped. */
  lemma RetainBounds(logs: seq<LogEntry>, e: LogEntry)
    requires |logs| <= MaxLogs
    ensures |Retain(logs, e)| <= MaxLogs
    ensures Retain(logs, e)[|Retain(logs, e)| - 1] == e
    ensures |logs| < MaxLogs ==> Retain(logs, e) == logs + [e]
    ensures |logs| == MaxLogs ==> Retain(logs, e) == logs[1..] + [e]
  {
    if |logs| == MaxLogs {
      assert (logs + [e])[1..] == logs[1..] + [e];
    }
  }

  /** Pushing onto the newest entries of a history gives the newest entries of the
      extended history: the buffer always holds the newest 100 entries stored since it was
      last cleared. */
  lemma RetainKeepsNewest(h: seq<LogEntry>, e: LogEntry)
    ensures Retain(Newest(h), e) == Newest(h + [e])
  {
    var n := Newest(h);
    if |h| > MaxLogs {
      var hh := h + [e];
      assert n + [e] == hh[|hh| - MaxLogs - 1..];
      assert (n + [e])[1..] == hh[|hh| - MaxLogs..];
    }
  }

  /** The bracketed timestamp prefix, present only when timestamps are shown. */
  function Stamp(c: DebugConfig, timestamp: string): string {
    if c.showTimestamps then "[" + timestamp + "] " else ""
  }

  /** The bracketed component, present only when component names are shown and the
      component is non-empty. */
  function ComponentTag(c: DebugConfig, component: string): string {
    if c.showComponentName && component != "" then " [" + component + "]" else ""
  }

  /** `text` is laid out as `formatMessage` lays it out: the optional timestamp prefix,
      the upper-cased level in brackets, the optional component, a space and the message. */
  predicate Formatted(c: DebugConfig, timestamp: string, level: Level, component: string,
                      message: string, text: string)
  {
    var head := Stamp(c, timestamp) + "[" + UpperName(level) + "]";
    StartsWith(text, head) && text[|head|..] == ComponentTag(c, component) + " " + message
  }

  /** The layout leaves no freedom: it fixes the text, which always ends with a space and
      the message. */
  lemma FormattedIsUnique(c: DebugConfig, timestamp: string, level: Level, component: string,
                          message: string, t1: string, t2: string)
    requires Formatted(c, timestamp, level, component, message, t1)
    requires Formatted(c, timestamp, level, component, message, t2)
    ensures t1 == t2
    ensures |t1| > |message| && t1[|t1| - |message| - 1..] == " " + message
  {
    var head := Stamp(c, timestamp) + "[" + UpperName(level) + "]";
    assert t1 == t1[..|head|] + t1[|head|..];
    assert t2 == t2[..|head|] + t2[|head|..];
  }

  lemma FormattedLayout(c: DebugConfig, timestamp: string, level: Level, component: string, message: string)
    ensures Formatted(c, timestamp, level, component, message,
                      Stamp(c, timestamp) + "[" + UpperName(level) + "]" + ComponentTag(c, component) + " " + message)
  {
    var head := Stamp(c, timestamp) + "[" + UpperName(level) + "]";
    var text := head + ComponentTag(c, component) + " " + message;
    assert text == head + (ComponentTag(c, component) + " " + message);
  }

  /** The console stream each level is written to. */
  datatype Channel = ConsoleError | ConsoleWarn | ConsoleInfo | ConsoleLog

  function ChannelOf(level: Level): Channel {
    match level
    case ErrorLevel => ConsoleError
    case WarnLevel => ConsoleWarn
    case InfoLevel => ConsoleInfo
    case DebugLevel => ConsoleLog
  }

  datatype ConsoleLine = ConsoleLine(channel: Channel, text: string)

  /** The logger. `history` is every entry stored since the buffer was last emptied. */
  class DebugLogger {
    var config: DebugConfig
    var logs: seq<LogEntry>
    ghost var history: seq<LogEntry>

    ghost predicate Valid()
      reads this
    {
      logs == Newest(history)
    }

    constructor (config: DebugConfig)
      ensures Valid() && this.config == config && logs == []
    {
      this.config := config;
      logs := [];
      history := [];
    }

    /** `formatMessage`: builds the console text piece by piece. */
    method FormatMessage(timestamp: string, level: Level, component: string, message: string)
      returns (formatted: string)
      ensures Formatted(config, timestamp, level, component, message, formatted)
    {
      formatted := "";
      if config.showTimestamps {
        formatted := formatted + "[" + timestamp + "] ";
      }
      assert formatted == Stamp(config, timestamp);
      formatted := formatted + "[" + UpperName(level) + "]";
      ghost var head := formatted;
      if config.showComponentName && component != "" {
        formatted := formatted + " [" + component + "]";
      }
      assert formatted == head + ComponentTag(config, component);
      formatted := formatted + " " + message;
      assert formatted == head + ComponentTag(config, component) + " " + message;
      FormattedLayout(config, timestamp, level, component, message);
    }

    /** `log`. The clock is read twice: `now` is the time stamped on the stored entry and
        `formatNow` the later reading that `formatMessage` puts on the console line. Returns
        the console line written, if any. */
    method Log(level: Level, component: string, message: string, now: string, formatNow: string)
      returns (printed: Option<ConsoleLine>)
      requires Valid()
      modifies this`logs, this`history
      ensures Valid()
      ensures var stored := ShouldLog(config, level) && config.logToStorage;
              var entry := LogEntry(now, level, component, message);
              && history == (if stored then old(history) + [entry] else old(history))
              && logs == (if stored then Retain(old(logs), entry) else old(logs))
      ensures printed.Some? <==> ShouldLog(config, level) && config.logToConsole
      ensures printed.Some? ==> printed.value.channel == ChannelOf(level)
      ensures printed.Some? ==> Formatted(config, formatNow, level, component, message, printed.value.text)
    {
      printed := None;
      if !ShouldLog(config, level) {
        return;
      }
      var entry := LogEntry(now, level, component, message);
      if config.logToStorage {
        RetainKeepsNewest(history, entry);
        logs := logs + [entry];
        if |logs| > MaxLogs {
          logs := logs[|logs| - MaxLogs..];
        }
        history := history + [entry];
      }
      if config.logToConsole {
        var formatted := FormatMessage(formatNow, level, component, message);
        printed := Some(ConsoleLine(ChannelOf(level), formatted));
      }
    }

    /** `getLogs`: a copy of the buffer. */
    method GetLogs() returns (r: seq<LogEntry>)
      requires Valid()
      ensures r == logs
      ensures |r| <= MaxLogs
    {
      r := logs;
    }

    /** `clearLogs`: empties the buffer; the configuration stays. */
    method ClearLogs()
      modifies this`logs, this`history
      ensures Valid() && logs == []
    {
      logs := [];
      history := [];
    }

    /** `updateConfig`. */
    method UpdateConfig(update: PartialConfig)
      modifies this`config
      ensures config == Merge(old(config), update)
    {
      config := Merge(config, update);
    }
  }
}
