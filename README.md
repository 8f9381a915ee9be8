# Xale Logger — a verified model

A model of the Xale Logger, a C++ logging facility. Callers obtain one
`Logger<T>` singleton per type `T`. They emit DEBUG, INFORMATION, WARNING or ERROR
messages, and each message becomes a line
`[YYYY-MM-DD HH:MM:SS.mmm] [LEVEL] [class name] message`. The line goes to the
console, coloured, and to an optional log file, uncoloured. Three process-wide
switches (debug enabled, log to console, log to file) and one log-file stream form
the configuration shared by every logger.

The model has five modules:

- `LoggerConfig` (`logger_config.dfy`): the `LogLevel` enumeration as its underlying
  integer, the shared configuration as a class whose fields the setters overwrite,
  and its initial values.
- `FileStream` (`file_stream.dfy`): the parts of `std::ofstream` the logger uses, as
  values: open/close/append and the stream's fail state, over a disk that maps paths
  to lines.
- `LogFormat` (`log_format.dfy`): the pure string functions of `Logger.h`. These are
  the level names and colours, the three-digit millisecond field, the
  `find_last_of(" :")` fallback for the class name and the line layout. Three of
  them have a partner that reads the result back, tied to them by a round-trip
  lemma: level names have a level-name parser, the millisecond field has a
  digit-string reader, and the line layout has a line parser. The colour and the
  class-name fallback have no inverse. Their contracts characterise the result
  instead: the colour of each level, and the suffix after the last separator.
- `Logger` (`logger.dfy`): `getInstance`, the setters, `setLogFilePath` and `log`
  with its wrappers. They are methods on objects: `Sinks` holds standard output,
  standard error and the disk as sequences of lines, `LoggerConfig` holds the
  configuration and `Registry` holds the per-type instances. `log` is specified by
  the function `LogEffect`, which states which lines are appended to which stream.
  The routing properties are lemmas about `LogEffect`.
- `Wrappers`: an `Option` type.

The system clock, the `typeid` name of `T` with its demangling, and whether the
operating system opens a file are all inputs. They are the parameters `dateTime`
and `sinceEpochMs`, the `TypeTag` of a logger, and `success`.

## Model

| member | source | states |
|---|---|---|
| `LoggerConfig.EnumeratorsInOrder` | include/LoggerConfig.h:14-20 | there are exactly four enumerators; the i-th declared one has value i; they are strictly increasing in declaration order; a level is an enumerator iff it is one of them |
| `LoggerConfig.InitialConfig` | src/LoggerConfig.cpp:10-13 | initially debug is enabled, console logging is on, file logging is off, and the log file is closed and not failed; this satisfies the invariant that an open log file is never in the fail state |
| `LoggerConfig.LoggerConfig.constructor` | src/LoggerConfig.cpp:10-13 | initially debug is enabled, console logging is on, file logging is off, and the log file is closed and not failed |
| `FileStream.OpenAppend` | include/Logger.h:129 | opening in append mode never changes any file's existing content; opening an already open stream fails and keeps the old file; success opens the path and clears the fail state; failure leaves the stream closed and failed |
| `FileStream.Close` | include/Logger.h:126 | after close the stream is not open; closing a closed stream sets the fail state |
| `FileStream.IsOpen` | include/Logger.h:335-338 | `isLogFilePathSet`: a stream that is not open writes nothing, whatever the disk and the line |
| `FileStream.WriteLine` | include/Logger.h:171 | a healthy open stream appends exactly the line plus a newline to its own file and touches no other file; a closed or failed stream writes nothing |
| `LogFormat.LevelToString` | include/Logger.h:258-269 | total; the result is "UNKNOWN" exactly for values outside the four enumerators; it never contains ']' |
| `LogFormat.LevelNameRoundTrip` | include/Logger.h:261-268 | parsing a name gives level l iff l is an enumerator whose name is that string, so the four names are distinct and identify their level |
| `LogFormat.LevelColor` | include/Logger.h:276-287 | total; DEBUG, INFORMATION, WARNING and ERROR get cyan, reset, orange and red; the result is reset exactly for INFORMATION and the values outside the enumeration |
| `LogFormat.Decimal` | include/Logger.h:249 | the printed integer is a non-empty digit string that reads back as the integer; it has no leading zero, and 0 prints as "0"; below 100 it has at most 2 digits, below 1000 at most 3 |
| `LogFormat.PadLeft` | include/Logger.h:249 | the field is padded to the width with the fill character on the left, and the original text is its suffix |
| `LogFormat.ZeroPadded3Exact` | include/Logger.h:244-249 | a millisecond count in 0..999 prints as exactly three digits that read back as the count |
| `LogFormat.TimestampLayout` | include/Logger.h:240-251 | the timestamp is the date-time, a dot and three digits equal to the time since the epoch modulo 1000; it has no ']' when the date-time has none |
| `LogFormat.FindLastOf` | include/Logger.h:307 | the result is -1 or the index of a character from the set, and no later character is in the set |
| `LogFormat.ClassNameFallback` | include/Logger.h:306-312 | the result is a suffix of the name without ' ' or ':'; if the name has a separator, the result begins right after the last one; otherwise it is the whole name |
| `LogFormat.ClassName` | include/Logger.h:297-312 | `getClassName` on Linux/GCC: a successful demangling gives the demangled name; otherwise the result is exactly `ClassNameFallback` of the raw name: the part after its last ' ' or ':', or the whole name when it has neither |
| `LogFormat.FormatLineFields` | include/Logger.h:147-153 | for any fields, the line has "[LEVEL]" right after the bracketed timestamp and ends with the message verbatim; its length is the fields' lengths plus 9 |
| `LogFormat.FormatParseRoundTrip` | include/Logger.h:147-153 | a formatted line parses back to its timestamp, level name, class name and message, so the message appears verbatim at the end |
| `Logger.DebugDisabledWritesNothing` | include/Logger.h:142-143 | with debug disabled, a DEBUG call leaves standard output, standard error and every file unchanged |
| `Logger.ConsoleRouting` | include/Logger.h:155-166 | with the console on, ERROR appends one coloured line to standard error and nothing to standard output, and other levels do the reverse; with the console off neither gets a console line; standard error also gets the path-not-set line when the file sink is on without an open file |
| `Logger.FileSink` | include/Logger.h:168-179 | with a valid configuration, only the open log file changes, and only when file logging is on; it gains exactly the uncoloured line and a newline |
| `Logger.ErrorWithoutLogFile` | include/Logger.h:155-179 | with the console and the file sink on but no file open, ERROR puts the coloured line and then the red path-not-set diagnostic on standard error, changes nothing else, and returns normally |
| `Logger.ConsoleLineCarriesLevelAndMessage` | include/Logger.h:147-166 | with the console on, for every timestamp, class name and message, the new console line is the coloured formatted line; it carries "[LEVEL]" after the timestamp and ends with the message verbatim; when the timestamp and the name hold no ']', it also parses back to its four fields |
| `Logger.InitialInfoGoesToStdoutOnly` | src/LoggerConfig.cpp:10-13 | from the initial configuration, INFORMATION appends one line to standard output and leaves standard error and the files unchanged |
| `Logger.SetLogFilePathAsWritten` | include/Logger.h:122-131 | as the source does it: an empty path closes the stream; a non-empty path on an open stream keeps the old file and sets the fail state; on a closed stream it opens the path if the system allows it; no file content is lost |
| `Logger.ReopenAsWrittenDropsLines` | include/Logger.h:123-131 | as written, a non-empty path while a file is open leaves the stream on the old file in the fail state, and later file lines are silently dropped until an empty path closes the stream |
| `Logger.ReopenAsWrittenExample` | include/Logger.h:125-130 | as written, opening "first.log" and then "second.log" leaves the stream failed on "first.log"; "second.log" is never created and a file line writes nothing; setting "today.log" twice likewise leaves the stream failed, so a file line writes nothing |
| `Logger.EmptyPathRecoversAsWritten` | include/Logger.h:123-131 | as written, an empty path closes the stuck stream and a following successful path opens a healthy stream, so the next file line lands at the end of that path |
| `Logger.SetLogFilePathEffect` | include/Logger.h:113-131 | the corrected setter (see ## Findings), which closes an open file before opening the new path (the source does not close it first): an empty path closes the file; a non-empty path opens it when the system allows it, and otherwise leaves the stream closed; no file content is ever lost; an open file is never failed |
| `Logger.SetLogFilePathRedirects` | include/Logger.h:116-118 | after a successful non-empty path, whatever was open before, the next file line is appended after that file's earlier content |
| `Logger.Logger.SetIsDebugEnable` | include/Logger.h:85-89 | overwrites the debug flag only; the other fields of the configuration and all streams are unchanged |
| `Logger.Logger.SetLogToConsole` | include/Logger.h:96-100 | overwrites the console flag only; the other fields of the configuration and all streams are unchanged |
| `Logger.Logger.SetLogToFile` | include/Logger.h:107-111 | overwrites the file flag only; the other fields of the configuration and all streams are unchanged |
| `Logger.Logger.SetLogFilePath` | include/Logger.h:122-131 | the log file and the disk change as `SetLogFilePathEffect` says; the three flags and the console streams are unchanged; the configuration invariant holds afterwards |
| `Logger.Logger.Log` | include/Logger.h:139-180 | the streams change exactly as `LogEffect` says for the line built from the timestamp, the level name, the class name and the message |
| `Logger.Logger.Debug` | include/Logger.h:188-192 | same as `Log` at level DEBUG |
| `Logger.Logger.Info` | include/Logger.h:200-204 | same as `Log` at level INFORMATION |
| `Logger.Logger.Warning` | include/Logger.h:212-216 | same as `Log` at level WARNING |
| `Logger.Logger.Error` | include/Logger.h:224-228 | same as `Log` at level ERROR |
| `Logger.Logger.constructor` | include/Logger.h:43 | a logger remembers its type and refers to the shared configuration and sinks |
| `Logger.Registry.constructor` | include/Logger.h:58-59 | initially no type has an instance |
| `Logger.Registry.GetInstance` | include/Logger.h:70-78 | a type that already has an instance gets that same instance and the registry is unchanged; otherwise exactly one fresh instance is created and recorded; the set of types with an instance only grows; every instance shares the one configuration |
| `Logger.SameTypeSameLogger` | include/Logger.h:71-78 | two requests for the same type return the identical logger |
| `Logger.InfoAtStartup` | src/LoggerConfig.cpp:10-13 | from program start, `info` through a fresh logger adds one coloured line to standard output and nothing elsewhere |
| `Logger.DebugSwitchIsShared` | examples/BasicUsage.cpp:59-61 | disabling debug through one type's logger silences DEBUG calls through another type's logger |
| `Logger.FileLoggingWithoutPath` | tests/LoggerTests.cpp:57-67 | with file logging on, the console off and an empty path, `info` completes and only adds the path-not-set diagnostic to standard error |

## Left out

- The mutex and the lock guards: the model is sequential. A call is one atomic step, so it has no interleavings and no unlocked reads of the debug flag.
- The system clock, `localtime` and `put_time`: the formatted date and time is the input `dateTime`. Only the millisecond field is computed.
- `typeid(T).name()` and `abi::__cxa_demangle`: a logger's `TypeTag` carries the raw name and the demangling outcome. Only the fallback after a failed demangling is modelled. The Windows and other-platform branches of `getClassName` are not modelled.
- Real stream and file I/O: the streams are sequences of lines, and the disk is a map from path to lines. The model has no I/O errors other than an `open` that fails.
- `LogFormat.Timestamp`: the time since the epoch is a natural number, so a system clock set before 1970 is not modelled. For such a clock, C++'s truncating `%` gives a negative millisecond count, which `setw(3)` with `setfill('0')` prints as, for example, "0-5".
- `std::endl`'s flush: each written line ends in "\n", and buffering is not modelled.
- Stream fail state set by an operation other than `open` or `close`.
- The ofstream's own destructor at process exit.
- `Logger.SetLogFilePathEffect`: it is the corrected setter, not the source's. It closes an open file before opening the new path, whereas include/Logger.h:129 calls `open` on the still-open stream, which fails and keeps the old file. The source's behaviour is `Logger.SetLogFilePathAsWritten` (see Findings).
- `Logger.Logger.SetLogFilePath`: it closes an open file before opening the new path. As written, the source passes the new path to `open` on the still-open stream (see Findings). The as-written behaviour is `Logger.SetLogFilePathAsWritten`.
- Copy construction and assignment, which the source deletes, have no counterpart: Dafny objects are references.
- Only `Logger` may change the configuration, because its fields are private and `Logger` is a friend. Dafny has no access control, so in the model this is a convention: only the `Logger` class's static methods assign the configuration's fields.
- The test fixtures that redirect `std::cout` and `std::cerr` and the `main` drivers: they are not part of this model. Their scenarios appear as the methods `InfoAtStartup`, `DebugSwitchIsShared` and `FileLoggingWithoutPath`.

## Findings

| source | as written | input that shows it | evidently intended | confidence | as-written member | corrected member |
|---|---|---|---|---|---|---|
| include/Logger.h:125-130 | a non-empty path is passed to `ofstream::open` even when a file is already open; `open` then fails, sets the fail state and leaves the stream on the old file, so every later file line is dropped without a diagnostic until an empty path closes the stream; setting the same path twice is enough to trigger it | `setLogFilePath("first.log")`, then `setLogFilePath("second.log")`, then `info("x")` with file logging on | the comment at include/Logger.h:116-118 says that the file is opened in append mode, so the old file should be closed and the new one opened | medium, not executed; relies on the C++ standard's `basic_filebuf::open`, which fails on an open file | `Logger.SetLogFilePathAsWritten`, `Logger.ReopenAsWrittenDropsLines` | `Logger.SetLogFilePathEffect`, `Logger.SetLogFilePathRedirects` |
