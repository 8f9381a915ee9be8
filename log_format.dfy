/**
 * The pure formatting half of Logger.h: level names and colours, the millisecond
 * field of the timestamp, the fallback that shortens a type name, and the layout of
 * a log line.  Each function comes with a partner: a parser that recovers what was
 * formatted, or a contract that characterises the result.
 */
module LogFormat {
  import opened Wrappers
  import opened LoggerConfig

  /** ANSI escape sequences; the source calls the reset sequence "black". */
  const COLOR_RESET: string := "\U{1B}[0m"
  const COLOR_CYAN: string := "\U{1B}[36m"
  const COLOR_ORANGE: string := "\U{1B}[33m"
  const COLOR_RED: string := "\U{1B}[31m"

  // ---------------------------------------------------------------------------
  // Level names and colours
  // ---------------------------------------------------------------------------

  /** `levelToString`: total; every value outside the enumeration reads "UNKNOWN". */
  function LevelToString(level: LogLevel): (name: string)
    ensures name == "UNKNOWN" <==> !IsEnumerator(level)
    ensures ']' !in name
  {
    if level == DEBUG then "DEBUG"
    else if level == INFORMATION then "INFORMATION"
    else if level == WARNING then "WARNING"
    else if level == ERROR then "ERROR"
    else "UNKNOWN"
  }

  /** The level a bracketed level name in a log line stands for. */
  function ParseLevel(name: string): (r: Option<LogLevel>)
    ensures r.Some? ==> IsEnumerator(r.value)
  {
    if name == "DEBUG" then Some(DEBUG)
    else if name == "INFORMATION" then Some(INFORMATION)
    else if name == "WARNING" then Some(WARNING)
    else if name == "ERROR" then Some(ERROR)
    else None
  }

  /** Names and levels are in one-to-one correspondence on the enumerators. */
  lemma LevelNameRoundTrip(name: string, level: LogLevel)
    ensures ParseLevel(name) == Some(level) <==> IsEnumerator(level) && LevelToString(level) == name
  {
  }

  /** `getLevelColor`: total; INFORMATION and every unknown value use the reset sequence. */
  function LevelColor(level: LogLevel): (color: string)
    ensures IsEnumerator(level) ==>
              color == [COLOR_CYAN, COLOR_RESET, COLOR_ORANGE, COLOR_RED][level as int]
    ensures color == COLOR_RESET <==> level == INFORMATION || !IsEnumerator(level)
  {
    if level == DEBUG then COLOR_CYAN
    else if level == INFORMATION then COLOR_RESET
    else if level == WARNING then COLOR_ORANGE
    else if level == ERROR then COLOR_RED
    else COLOR_RESET
  }

  // ---------------------------------------------------------------------------
  // The millisecond field of the timestamp
  // ---------------------------------------------------------------------------

  predicate IsDigits(s: string) {
    forall i :: 0 <= i < |s| ==> '0' <= s[i] <= '9'
  }

  /** The number a string of decimal digits denotes (leading zeros allowed). */
  function DecimalValue(s: string): nat
    requires IsDigits(s)
  {
    if s == [] then 0
    else 10 * DecimalValue(s[..|s| - 1]) + (s[|s| - 1] as int - '0' as int)
  }

  /** What `operator<<` prints for a non-negative integer. */
  function Decimal(n: nat): (r: string)
    ensures IsDigits(r) && DecimalValue(r) == n
    ensures 1 <= |r|
    ensures n == 0 ==> r == "0"
    ensures n > 0 ==> r[0] != '0'
    ensures n < 100 ==> |r| <= 2
    ensures n < 1000 ==> |r| <= 3
    decreases n
  {
    var last := [('0' as int + n % 10) as char];
    if n < 10 then last
    else
      var r := Decimal(n / 10) + last;
      assert r[..|r| - 1] == Decimal(n / 10);
      r
  }

  /** What `std::setw(width)` with `std::setfill(fill)` does to a field: pad on the left. */
  function PadLeft(s: string, width: nat, fill: char): (r: string)
    ensures |r| == if |s| < width then width else |s|
    ensures r[|r| - |s|..] == s
    ensures forall i :: 0 <= i < |r| - |s| ==> r[i] == fill
  {
    if |s| < width then seq(width - |s|, _ => fill) + s else s
  }

  lemma {:induction false} ZerosValue(z: string)
    requires forall i :: 0 <= i < |z| ==> z[i] == '0'
    ensures IsDigits(z) && DecimalValue(z) == 0
  {
    if z != [] {
      ZerosValue(z[..|z| - 1]);
    }
  }

  /** Leading zeros do not change the value of a digit string. */
  lemma {:induction false} LeadingZerosValue(z: string, s: string)
    requires forall i :: 0 <= i < |z| ==> z[i] == '0'
    requires IsDigits(s)
    ensures IsDigits(z + s) && DecimalValue(z + s) == DecimalValue(s)
    decreases |s|
  {
    if s == [] {
      assert z + s == z;
      ZerosValue(z);
    } else {
      var s' := s[..|s| - 1];
      LeadingZerosValue(z, s');
      assert (z + s)[..|z + s| - 1] == z + s';
    }
  }

  /** `std::setfill('0') << std::setw(3) << ms`. */
  function ZeroPadded3(n: nat): string {
    PadLeft(Decimal(n), 3, '0')
  }

  /** A millisecond count below 1000 prints as exactly three digits that read back as it. */
  lemma ZeroPadded3Exact(n: nat)
    requires n < 1000
    ensures |ZeroPadded3(n)| == 3
    ensures IsDigits(ZeroPadded3(n)) && DecimalValue(ZeroPadded3(n)) == n
  {
    var d := Decimal(n);
    var r := ZeroPadded3(n);
    var z := r[..|r| - |d|];
    assert r == z + d;
    LeadingZerosValue(z, d);
  }

  /** A digit string holds no closing bracket. */
  lemma DigitsHaveNoBracket(s: string)
    requires IsDigits(s)
    ensures ']' !in s
  {
  }

  /** The pieces of "a.b". */
  lemma DottedParts(a: string, b: string)
    ensures |a + "." + b| == |a| + 1 + |b|
    ensures (a + "." + b)[..|a|] == a && (a + "." + b)[|a|] == '.' && (a + "." + b)[|a| + 1..] == b
    ensures ']' !in a && ']' !in b ==> ']' !in a + "." + b
  {
  }

  /**
   * `getCurrentTimestamp`: the local date and time (`put_time` with
   * "%Y-%m-%d %H:%M:%S", given here as `dateTime`), a dot, and the milliseconds of
   * the current second, taken from the time since the epoch.
   */
  function Timestamp(dateTime: string, sinceEpochMs: nat): string {
    dateTime + "." + ZeroPadded3(sinceEpochMs % 1000)
  }

  /**
   * The timestamp is the date and time, a dot and exactly three digits that read
   * back as the milliseconds of the current second.
   */
  lemma TimestampLayout(dateTime: string, sinceEpochMs: nat)
    ensures var ts := Timestamp(dateTime, sinceEpochMs);
            |ts| == |dateTime| + 4 && ts[..|dateTime|] == dateTime && ts[|dateTime|] == '.' &&
            IsDigits(ts[|dateTime| + 1..]) && DecimalValue(ts[|dateTime| + 1..]) == sinceEpochMs % 1000 &&
            (']' !in dateTime ==> ']' !in ts)
  {
    var ms := sinceEpochMs % 1000;
    var digits := ZeroPadded3(ms);
    ZeroPadded3Exact(ms);
    DigitsHaveNoBracket(digits);
    DottedParts(dateTime, digits);
  }

  // ---------------------------------------------------------------------------
  // The name of the logger's type
  // ---------------------------------------------------------------------------

  /** The characters `find_last_of(" :")` looks for. */
  const Separators: set<char> := {' ', ':'}

  /** `std::string::find_last_of`: the last index holding one of `chars`, or -1 (npos). */
  function FindLastOf(s: string, chars: set<char>): (pos: int)
    ensures -1 <= pos < |s|
    ensures pos >= 0 ==> s[pos] in chars
    ensures forall i :: pos < i < |s| ==> s[i] !in chars
  {
    if s == [] then -1
    else if s[|s| - 1] in chars then |s| - 1
    else FindLastOf(s[..|s| - 1], chars)
  }

  /**
   * The fallback of `getClassName` when demangling fails: the part of the raw type
   * name after its last space or colon, or the whole name when it has neither.
   */
  function ClassNameFallback(name: string): (r: string)
    ensures |r| <= |name| && r == name[|name| - |r|..]
    ensures forall i :: 0 <= i < |r| ==> r[i] !in Separators
    ensures (exists i :: 0 <= i < |name| && name[i] in Separators) ==>
              |r| < |name| && name[|name| - |r| - 1] in Separators
    ensures (forall i :: 0 <= i < |name| ==> name[i] !in Separators) ==> r == name
  {
    var pos := FindLastOf(name, Separators);
    if pos >= 0 then name[pos + 1..] else name
  }

  /** The outcome of `abi::__cxa_demangle` on the type's raw name. */
  datatype Demangled = Demangled(name: string) | DemangleFailed

  /** `getClassName` on Linux and GCC: the demangled name, else the fallback. */
  function ClassName(mangled: string, demangled: Demangled): (r: string)
    ensures demangled.Demangled? ==> r == demangled.name
      ensures demangled.DemangleFailed? ==> r == ClassNameFallback(mangled)
  {
    match demangled
    case Demangled(name) => name
    case DemangleFailed => ClassNameFallback(mangled)
  }

  // ---------------------------------------------------------------------------
  // The layout of a log line
  // ---------------------------------------------------------------------------

  /** The line `log` builds: "[timestamp] [LEVEL] [class name] message". */
  function FormatLine(timestamp: string, level: LogLevel, name: string, message: string): string {
    "[" + timestamp + "] [" + LevelToString(level) + "] [" + name + "] " + message
  }

  /**
   * Whatever the fields hold, the line carries "[LEVEL]" right after the bracketed
   * timestamp and ends with the message verbatim.
   */
  lemma FormatLineFields(timestamp: string, level: LogLevel, name: string, message: string)
    ensures var line := FormatLine(timestamp, level, name, message);
            var levelName := LevelToString(level);
            |line| == |timestamp| + |levelName| + |name| + |message| + 9 &&
            line[|timestamp| + 3..|timestamp| + 5 + |levelName|] == "[" + levelName + "]" &&
            line[|line| - |message|..] == message
  {
    var levelName := LevelToString(level);
    var line := FormatLine(timestamp, level, name, message);
    var head := "[" + timestamp + "] ";
    var bracketed := "[" + levelName + "]";
    var rest := " [" + name + "] ";
    assert line == head + bracketed + rest + message;
    assert (head + bracketed + rest + message)[|head|..|head| + |bracketed|] == bracketed;
    assert (head + bracketed + rest + message)[|head + bracketed + rest|..] == message;
  }

  /** The four fields of a log line. */
  datatype LineParts = LineParts(timestamp: string, levelName: string, name: string, message: string)

  /** The first index of `c` in `s`, or -1. */
  function IndexOf(s: string, c: char): (pos: int)
    ensures -1 <= pos < |s|
    ensures pos >= 0 ==> s[pos] == c
    ensures forall i :: 0 <= i < |s| && (pos < 0 || i < pos) ==> s[i] != c
  {
    if s == [] then -1
    else if s[0] == c then 0
    else
      var p := IndexOf(s[1..], c);
      if p < 0 then -1 else p + 1
  }

  /** Splits "[field] rest" at the first closing bracket. */
  function SplitField(s: string): Option<(string, string)> {
    if |s| == 0 || s[0] != '[' then None
    else
      var j := IndexOf(s, ']');
      if j < 1 || j + 1 >= |s| || s[j + 1] != ' ' then None
      else Some((s[1..j], s[j + 2..]))
  }

  /** Reads a log line back into its fields. */
  function ParseLine(line: string): Option<LineParts> {
    match SplitField(line)
    case None => None
    case Some((timestamp, rest1)) =>
      match SplitField(rest1)
      case None => None
      case Some((levelName, rest2)) =>
        match SplitField(rest2)
        case None => None
        case Some((name, message)) => Some(LineParts(timestamp, levelName, name, message))
  }

  lemma SplitFieldOf(field: string, rest: string)
    requires ']' !in field
    ensures SplitField("[" + field + "] " + rest) == Some((field, rest))
  {
    var s := "[" + field + "] " + rest;
    assert s[|field| + 1] == ']';
    assert forall i :: 0 <= i < |field| + 1 ==> s[i] != ']' by {
      forall i | 0 <= i < |field| + 1 ensures s[i] != ']' {
        if i > 0 { assert s[i] == field[i - 1]; }
      }
    }
    assert s[1..|field| + 1] == field;
    assert s[|field| + 3..] == rest;
  }

  /**
   * A line read back yields exactly what was formatted, the message verbatim, as long
   * as the timestamp and the class name hold no closing bracket.
   */
  lemma FormatParseRoundTrip(timestamp: string, level: LogLevel, name: string, message: string)
    requires ']' !in timestamp && ']' !in name
    ensures ParseLine(FormatLine(timestamp, level, name, message))
            == Some(LineParts(timestamp, LevelToString(level), name, message))
  {
    var levelName := LevelToString(level);
    var rest2 := "[" + name + "] " + message;
    var rest1 := "[" + levelName + "] " + rest2;
    assert FormatLine(timestamp, level, name, message) == "[" + timestamp + "] " + rest1;
    SplitFieldOf(timestamp, rest1);
    SplitFieldOf(levelName, rest2);
    SplitFieldOf(name, message);
  }
}
