/**
 * The imperative half of Logger.h: the per-type singletons, the static setters that
 * overwrite the shared configuration, and `log` with its four wrappers, which append
 * lines to standard output, standard error and the log file.
 *
 * The process's output is the object `Sinks`; the shared configuration is one
 * `LoggerConfig` object that every `Logger` refers to, so a setter called through any
 * logger affects all of them.
 */
module Logger {
  import opened Wrappers
  import opened FileStream
  import opened LoggerConfig
  import opened LogFormat

  /** What has been written so far to standard output, standard error and the disk. */
  datatype Streams = Streams(stdout: seq<string>, stderr: seq<string>, files: Disk)

  /** The process's output streams; each element of a stream is one line ending in "\n". */
  class Sinks {
    var stdout: seq<string>
    var stderr: seq<string>
    var files: Disk

    constructor (files: Disk)
      ensures stdout == [] && stderr == [] && this.files == files
    {
      stdout := [];
      stderr := [];
      this.files := files;
    }

    function Value(): Streams
      reads this
    {
      Streams(stdout, stderr, files)
    }
  }

  // ---------------------------------------------------------------------------
  // The effect of `log`, as a function of the configuration and the streams
  // ---------------------------------------------------------------------------

  /** The diagnostic written when file logging is on but no log file is open. */
  const PATH_NOT_SET_LINE: string :=
    COLOR_RED + "[Logger Error] Log file path is not set." + COLOR_RESET + "\n"

  /** A formatted line as the console receives it: coloured, reset, newline. */
  function ConsoleLine(level: LogLevel, line: string): string {
    LevelColor(level) + line + COLOR_RESET + "\n"
  }

  /** The level gate: only DEBUG can be switched off. */
  predicate Emits(c: Config, level: LogLevel) {
    c.isDebugEnable || level != DEBUG
  }

  /** The console block of `log`: one coloured line, to standard error for ERROR. */
  function ConsoleEffect(c: Config, s: Streams, level: LogLevel, line: string): Streams {
    if !c.logToConsole then s
    else if level == ERROR then s.(stderr := s.stderr + [ConsoleLine(level, line)])
    else s.(stdout := s.stdout + [ConsoleLine(level, line)])
  }

  /** The file block of `log`: the plain line to the open file, else the diagnostic. */
  function FileEffect(c: Config, s: Streams, line: string): Streams {
    if !c.logToFile then s
    else if IsOpen(c.logFile) then s.(files := WriteLine(c.logFile, s.files, line))
    else s.(stderr := s.stderr + [PATH_NOT_SET_LINE])
  }

  /** The streams after `log` has handled the formatted `line` of level `level`. */
  function LogEffect(c: Config, s: Streams, level: LogLevel, line: string): Streams {
    if !Emits(c, level) then s
    else FileEffect(c, ConsoleEffect(c, s, level, line), line)
  }

  /** With debug disabled, a DEBUG call writes nothing anywhere. */
  lemma DebugDisabledWritesNothing(c: Config, s: Streams, line: string)
    requires !c.isDebugEnable
    ensures LogEffect(c, s, DEBUG, line) == s
  {
  }

  /**
   * Console routing: ERROR lines go to standard error and never to standard output,
   * every other level the other way round; with the console off neither receives a
   * console line.  Standard error may in addition receive the path-not-set diagnostic.
   */
  lemma ConsoleRouting(c: Config, s: Streams, level: LogLevel, line: string)
    requires Emits(c, level)
    ensures LogEffect(c, s, level, line).stdout
            == s.stdout + (if c.logToConsole && level != ERROR then [ConsoleLine(level, line)] else [])
    ensures LogEffect(c, s, level, line).stderr
            == s.stderr + (if c.logToConsole && level == ERROR then [ConsoleLine(level, line)] else [])
                        + (if c.logToFile && !IsOpen(c.logFile) then [PATH_NOT_SET_LINE] else [])
  {
  }

  /**
   * File sink: with file logging off, or with no file open, the disk is untouched;
   * with a file open, exactly the uncoloured line and a newline are appended to it,
   * and no other file changes.
   */
  lemma FileSink(c: Config, s: Streams, level: LogLevel, line: string)
    requires Emits(c, level) && ConfigValid(c)
    ensures var r := LogEffect(c, s, level, line);
            forall p :: Contents(r.files, p)
                        == if c.logToFile && IsOpen(c.logFile) && p == c.logFile.path
                           then Contents(s.files, p) + [line + "\n"]
                           else Contents(s.files, p)
  {
  }

  /**
   * What the console shows carries the level name and the message verbatim, for
   * every timestamp, class name and message: the new console line is the coloured
   * formatted line, which holds "[LEVEL]" right after the bracketed timestamp and
   * ends with the message.  When the timestamp and the class name hold no closing
   * bracket (a timestamp has none when its date-time has none, by `TimestampLayout`),
   * the line also reads back as its fields.
   */
  lemma ConsoleLineCarriesLevelAndMessage(c: Config, s: Streams, level: LogLevel, timestamp: string,
                                          name: string, message: string)
    requires Emits(c, level) && c.logToConsole
    ensures var line := FormatLine(timestamp, level, name, message);
            var r := LogEffect(c, s, level, line);
            var (before, after) := if level == ERROR then (s.stderr, r.stderr) else (s.stdout, r.stdout);
            |after| > |before| && after[|before|] == LevelColor(level) + line + COLOR_RESET + "\n" &&
            |line| == |timestamp| + |LevelToString(level)| + |name| + |message| + 9 &&
            line[|timestamp| + 3..|timestamp| + 5 + |LevelToString(level)|] == "[" + LevelToString(level) + "]" &&
            line[|line| - |message|..] == message &&
            (']' !in timestamp && ']' !in name ==>
               ParseLine(line) == Some(LineParts(timestamp, LevelToString(level), name, message)))
  {
    var line := FormatLine(timestamp, level, name, message);
    FormatLineFields(timestamp, level, name, message);
    ConsoleRouting(c, s, level, line);
    if ']' !in timestamp && ']' !in name {
      FormatParseRoundTrip(timestamp, level, name, message);
    }
  }

  /** From the initial configuration, `info` writes one line to standard output only. */
  lemma InitialInfoGoesToStdoutOnly(s: Streams, line: string)
    ensures LogEffect(InitialConfig(), s, INFORMATION, line)
            == s.(stdout := s.stdout + [ConsoleLine(INFORMATION, line)])
  {
  }

  /**
   * An ERROR call with the console on and file logging on but no file open reports
   * the line and then the diagnostic on standard error, and completes normally.
   */
  lemma ErrorWithoutLogFile(c: Config, s: Streams, line: string)
    requires c.logToConsole && c.logToFile && !IsOpen(c.logFile)
    ensures LogEffect(c, s, ERROR, line)
            == s.(stderr := s.stderr + [ConsoleLine(ERROR, line), PATH_NOT_SET_LINE])
  {
  }

  // ---------------------------------------------------------------------------
  // setLogFilePath
  // ---------------------------------------------------------------------------

  /**
   * `setLogFilePath` as written: an empty path closes the stream, any other path is
   * passed to `open` in append mode, even when a file is already open.
   */
  function SetLogFilePathAsWritten(h: Handle, disk: Disk, path: string, success: bool): (r: (Handle, Disk))
    ensures path == "" ==> !IsOpen(r.0) && r.1 == disk
    ensures path != "" && IsOpen(h) ==> r == (h.(failed := true), disk)
    ensures path != "" && !IsOpen(h) && success ==> r.0 == Open(path, false)
    ensures path != "" && !IsOpen(h) && !success ==> !IsOpen(r.0) && r.0.failed
    ensures forall p :: Contents(r.1, p) == Contents(disk, p)
  {
    if path == "" then (Close(h), disk) else OpenAppend(h, disk, path, success)
  }

  /**
   * As written, pointing the logger at a second file while one is open leaves the
   * stream on the first file in the fail state: every later file line is dropped,
   * and since the stream is still open no diagnostic is written either, until an
   * empty path closes the stream.
   */
  lemma ReopenAsWrittenDropsLines(h: Handle, disk: Disk, path: string, success: bool, line: string)
    requires IsOpen(h) && path != ""
    ensures var r := SetLogFilePathAsWritten(h, disk, path, success);
            IsOpen(r.0) && r.0.path == h.path && r.0.failed && WriteLine(r.0, r.1, line) == r.1
  {
  }

  /**
   * Concrete instances of the discrepancy: "first.log" then "second.log", and the
   * same path "today.log" set twice.
   */
  lemma ReopenAsWrittenExample()
    ensures var first := SetLogFilePathAsWritten(Closed(false), map[], "first.log", true);
            var second := SetLogFilePathAsWritten(first.0, first.1, "second.log", true);
            second.0 == Open("first.log", true) && "second.log" !in second.1 &&
            WriteLine(second.0, second.1, "x") == second.1
    ensures var first := SetLogFilePathAsWritten(Closed(false), map[], "today.log", true);
            var second := SetLogFilePathAsWritten(first.0, first.1, "today.log", true);
            second.0 == Open("today.log", true) && WriteLine(second.0, second.1, "x") == second.1
  {
  }

  /**
   * As written, the stuck stream recovers once an empty path closes it: `close`
   * succeeds on the open stream, and the next successful `open` clears the fail
   * state, so file lines reach the new path again.
   */
  lemma EmptyPathRecoversAsWritten(h: Handle, disk: Disk, path: string, line: string)
    requires IsOpen(h) && path != ""
    ensures var cleared := SetLogFilePathAsWritten(h, disk, "", true);
            var r := SetLogFilePathAsWritten(cleared.0, cleared.1, path, true);
            r.0 == Open(path, false) &&
            Contents(WriteLine(r.0, r.1, line), path) == Contents(disk, path) + [line + "\n"]
  {
  }

  /**
   * `setLogFilePath` as intended: an empty path closes the log file, any other path
   * closes the current file first and opens the new one in append mode.  Nothing
   * already on the disk is lost, and an open log file is never in the fail state.
   */
  function SetLogFilePathEffect(h: Handle, disk: Disk, path: string, success: bool): (r: (Handle, Disk))
    ensures path == "" ==> !IsOpen(r.0) && r.1 == disk
    ensures path != "" && success ==> r.0 == Open(path, false)
    ensures path != "" && !success ==> !IsOpen(r.0)
    ensures forall p :: Contents(r.1, p) == Contents(disk, p)
    ensures IsOpen(r.0) ==> !r.0.failed
  {
    if path == "" then (Close(h), disk)
    else
      var closed := if IsOpen(h) then Close(h) else h;
      OpenAppend(closed, disk, path, success)
  }

  /**
   * After a successful `setLogFilePath(path)`, whatever was open before, the next
   * file line lands at the end of `path`, after its earlier content.
   */
  lemma SetLogFilePathRedirects(h: Handle, disk: Disk, path: string, line: string)
    requires path != ""
    ensures var r := SetLogFilePathEffect(h, disk, path, true);
            Contents(WriteLine(r.0, r.1, line), path) == Contents(disk, path) + [line + "\n"]
  {
  }

  // ---------------------------------------------------------------------------
  // Logger instances
  // ---------------------------------------------------------------------------

  /** The type a logger is instantiated for: its raw `typeid` name and how it demangles. */
  datatype TypeTag = TypeTag(mangled: string, demangled: Demangled)

  class Logger {
    const tag: TypeTag
    const config: LoggerConfig
    const sinks: Sinks

    /** Private in the source: only `Registry.GetInstance` creates loggers. */
    constructor (tag: TypeTag, config: LoggerConfig, sinks: Sinks)
      ensures this.tag == tag && this.config == config && this.sinks == sinks
    {
      this.tag := tag;
      this.config := config;
      this.sinks := sinks;
    }

    /** `getClassName`. */
    function Name(): string {
      ClassName(tag.mangled, tag.demangled)
    }

    static method SetIsDebugEnable(config: LoggerConfig, enable: bool)
      modifies config
      ensures config.Value() == old(config.Value()).(isDebugEnable := enable)
    {
      config.isDebugEnable := enable;
    }

    static method SetLogToConsole(config: LoggerConfig, enable: bool)
      modifies config
      ensures config.Value() == old(config.Value()).(logToConsole := enable)
    {
      config.logToConsole := enable;
    }

    static method SetLogToFile(config: LoggerConfig, enable: bool)
      modifies config
      ensures config.Value() == old(config.Value()).(logToFile := enable)
    {
      config.logToFile := enable;
    }

    /** `success` is whether the operating system lets the file be opened. */
    static method SetLogFilePath(config: LoggerConfig, sinks: Sinks, path: string, success: bool)
      modifies config, sinks
      ensures (config.logFile, sinks.files)
              == SetLogFilePathEffect(old(config.logFile), old(sinks.files), path, success)
      ensures config.Value() == old(config.Value()).(logFile := config.logFile)
      ensures config.Valid()
      ensures sinks.stdout == old(sinks.stdout) && sinks.stderr == old(sinks.stderr)
    {
      if path == "" {
        config.logFile := Close(config.logFile);
      } else {
        if IsOpen(config.logFile) {
          config.logFile := Close(config.logFile);
        }
        var result := OpenAppend(config.logFile, sinks.files, path, success);
        config.logFile, sinks.files := result.0, result.1;
      }
    }

    /**
     * `log`: the local date and time and the time since the epoch stand for the
     * system clock.
     */
    method Log(level: LogLevel, message: string, dateTime: string, sinceEpochMs: nat)
      modifies sinks
      ensures sinks.Value()
              == LogEffect(config.Value(), old(sinks.Value()), level,
                           FormatLine(Timestamp(dateTime, sinceEpochMs), level, Name(), message))
    {
      if !config.isDebugEnable && level == DEBUG {
        return;
      }
      var line := FormatLine(Timestamp(dateTime, sinceEpochMs), level, Name(), message);
      ghost var c, before := config.Value(), sinks.Value();
      if config.logToConsole {
        if level == ERROR {
          sinks.stderr := sinks.stderr + [ConsoleLine(level, line)];
        } else {
          sinks.stdout := sinks.stdout + [ConsoleLine(level, line)];
        }
      }
      assert sinks.Value() == ConsoleEffect(c, before, level, line);
      if config.logToFile {
        if IsOpen(config.logFile) {
          sinks.files := WriteLine(config.logFile, sinks.files, line);
        } else {
          sinks.stderr := sinks.stderr + [PATH_NOT_SET_LINE];
        }
      }
    }

    method Debug(message: string, dateTime: string, sinceEpochMs: nat)
      modifies sinks
      ensures sinks.Value()
              == LogEffect(config.Value(), old(sinks.Value()), DEBUG,
                           FormatLine(Timestamp(dateTime, sinceEpochMs), DEBUG, Name(), message))
    {
      Log(DEBUG, message, dateTime, sinceEpochMs);
    }

    method Info(message: string, dateTime: string, sinceEpochMs: nat)
      modifies sinks
      ensures sinks.Value()
              == LogEffect(config.Value(), old(sinks.Value()), INFORMATION,
                           FormatLine(Timestamp(dateTime, sinceEpochMs), INFORMATION, Name(), message))
    {
      Log(INFORMATION, message, dateTime, sinceEpochMs);
    }

    method Warning(message: string, dateTime: string, sinceEpochMs: nat)
      modifies sinks
      ensures sinks.Value()
              == LogEffect(config.Value(), old(sinks.Value()), WARNING,
                           FormatLine(Timestamp(dateTime, sinceEpochMs), WARNING, Name(), message))
    {
      Log(WARNING, message, dateTime, sinceEpochMs);
    }

    method Error(message: string, dateTime: string, sinceEpochMs: nat)
      modifies sinks
      ensures sinks.Value()
              == LogEffect(config.Value(), old(sinks.Value()), ERROR,
                           FormatLine(Timestamp(dateTime, sinceEpochMs), ERROR, Name(), message))
    {
      Log(ERROR, message, dateTime, sinceEpochMs);
    }
  }

  /**
   * The per-type `instance` pointers: at most one logger per type, created on first
   * request, all sharing one configuration and one set of sinks.
   */
  class Registry {
    const config: LoggerConfig
    const sinks: Sinks
    var instances: map<TypeTag, Logger>

    ghost predicate Valid()
      reads this
    {
      forall t | t in instances ::
        instances[t].tag == t && instances[t].config == config && instances[t].sinks == sinks
    }

    constructor (config: LoggerConfig, sinks: Sinks)
      ensures Valid() && this.config == config && this.sinks == sinks && instances == map[]
    {
      this.config := config;
      this.sinks := sinks;
      instances := map[];
    }

    /** `getInstance`. */
    method GetInstance(tag: TypeTag) returns (logger: Logger)
      requires Valid()
      modifies this
      ensures Valid()
      ensures logger.tag == tag && logger.config == config && logger.sinks == sinks
      ensures tag in old(instances) ==> logger == old(instances[tag]) && instances == old(instances)
      ensures tag !in old(instances) ==> fresh(logger) && instances == old(instances)[tag := logger]
      ensures old(instances.Keys) <= instances.Keys && instances[tag] == logger
    {
      if tag !in instances {
        var created := new Logger(tag, config, sinks);
        instances := instances[tag := created];
      }
      logger := instances[tag];
    }
  }

  // ---------------------------------------------------------------------------
  // Scenarios from the tests and the example program
  // ---------------------------------------------------------------------------

  /** Two requests for the same type yield the very same logger. */
  method SameTypeSameLogger(registry: Registry, tag: TypeTag) returns (first: Logger, second: Logger)
    requires registry.Valid()
    modifies registry
    ensures registry.Valid() && first == second
  {
    first := registry.GetInstance(tag);
    second := registry.GetInstance(tag);
  }

  /** Starting from the initial configuration, `info` writes one line to standard output only. */
  method InfoAtStartup(tag: TypeTag, files: Disk, message: string, dateTime: string, sinceEpochMs: nat)
    returns (before: Streams, after: Streams)
    ensures after == before.(stdout := before.stdout + [ConsoleLine(INFORMATION,
              FormatLine(Timestamp(dateTime, sinceEpochMs), INFORMATION, ClassName(tag.mangled, tag.demangled), message))])
  {
    var config := new LoggerConfig();
    var sinks := new Sinks(files);
    var registry := new Registry(config, sinks);
    var logger := registry.GetInstance(tag);
    before := sinks.Value();
    logger.Info(message, dateTime, sinceEpochMs);
    after := sinks.Value();
    InitialInfoGoesToStdoutOnly(before, FormatLine(Timestamp(dateTime, sinceEpochMs), INFORMATION, logger.Name(), message));
  }

  /**
   * Debug is switched off through the logger of one type and a DEBUG call through the
   * logger of another type writes nothing: the configuration is shared.
   */
  method DebugSwitchIsShared(first: TypeTag, second: TypeTag, files: Disk,
                             message: string, dateTime: string, sinceEpochMs: nat)
    returns (before: Streams, after: Streams)
    ensures after == before
  {
    var config := new LoggerConfig();
    var sinks := new Sinks(files);
    var registry := new Registry(config, sinks);
    var one := registry.GetInstance(first);
    var other := registry.GetInstance(second);
    Logger.SetIsDebugEnable(one.config, false);
    before := sinks.Value();
    other.Debug(message, dateTime, sinceEpochMs);
    after := sinks.Value();
  }

  /**
   * File logging on, console off and an empty path: `info` completes, writes the
   * diagnostic to standard error and nothing else.
   */
  method FileLoggingWithoutPath(tag: TypeTag, files: Disk, message: string, dateTime: string, sinceEpochMs: nat)
    returns (before: Streams, after: Streams)
    ensures after == before.(stderr := before.stderr + [PATH_NOT_SET_LINE])
  {
    var config := new LoggerConfig();
    var sinks := new Sinks(files);
    var registry := new Registry(config, sinks);
    var logger := registry.GetInstance(tag);
    Logger.SetIsDebugEnable(config, true);
    Logger.SetLogToConsole(config, false);
    Logger.SetLogToFile(config, true);
    Logger.SetLogFilePath(config, sinks, "", true);
    before := sinks.Value();
    logger.Info(message, dateTime, sinceEpochMs);
    after := sinks.Value();
  }
}
