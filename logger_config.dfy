/**
 * The log levels and the configuration shared by every logger (LoggerConfig.h and
 * LoggerConfig.cpp).  The configuration is a class because the logger's static
 * setters overwrite its fields in place; it holds exactly the three switches and the
 * log-file stream (the mutex is left out: the model is sequential).
 */
module LoggerConfig {
  import opened FileStream

  /**
   * `LogLevel` is a C++ unscoped enumeration whose enumerators are 0, 1, 2 and 3, in
   * declaration order.  In C++ the type holds only those four values; the model
   * admits every integer so that the defensive `default:` branches of the level
   * switches can be stated.
   */
  newtype LogLevel = int

  const DEBUG: LogLevel := 0
  const INFORMATION: LogLevel := 1
  const WARNING: LogLevel := 2
  const ERROR: LogLevel := 3

  /** The enumerators in declaration order. */
  const Enumerators: seq<LogLevel> := [DEBUG, INFORMATION, WARNING, ERROR]

  predicate IsEnumerator(level: LogLevel) {
    DEBUG <= level <= ERROR
  }

  /** Declaration order: the i-th enumerator has the value i, and there are no others. */
  lemma EnumeratorsInOrder(level: LogLevel)
    ensures |Enumerators| == 4
    ensures forall i :: 0 <= i < |Enumerators| ==> Enumerators[i] as int == i
    ensures forall i, j :: 0 <= i < j < |Enumerators| ==> Enumerators[i] < Enumerators[j]
    ensures IsEnumerator(level) <==> level in Enumerators
  {
  }

  /** The value of the shared configuration. */
  datatype Config = Config(isDebugEnable: bool, logToConsole: bool, logToFile: bool, logFile: Handle)

  /** The configuration at program start (LoggerConfig.cpp). */
  function InitialConfig(): (c: Config)
    ensures c.isDebugEnable && c.logToConsole && !c.logToFile
    ensures !IsOpen(c.logFile) && !c.logFile.failed
    ensures ConfigValid(c)
  {
    Config(isDebugEnable := true, logToConsole := true, logToFile := false, logFile := Closed(false))
  }

  /**
   * The invariant the configuration keeps: an open log file is never in the fail
   * state, so each line sent to it is written.
   */
  predicate ConfigValid(c: Config) {
    c.logFile.Open? ==> !c.logFile.failed
  }

  class LoggerConfig {
    var isDebugEnable: bool
    var logToConsole: bool
    var logToFile: bool
    var logFile: Handle

    function Value(): Config
      reads this
    {
      Config(isDebugEnable, logToConsole, logToFile, logFile)
    }

    predicate Valid()
      reads this
    {
      ConfigValid(Value())
    }

    /** The static initialisation of the fields. */
    constructor ()
      ensures Valid() && Value() == InitialConfig()
      ensures isDebugEnable
      ensures !logFile.Open? && !logFile.failed
      ensures !logToFile
      ensures logToConsole
    {
      isDebugEnable := true;
      logFile := Closed(false);
      logToFile := false;
      logToConsole := true;
    }
  }
}
