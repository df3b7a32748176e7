/**
 * The debug log line builder.
 *
 * A log call names a severity, a message, an optional error, and the source
 * location of the call (file path, function name, line number). It builds the
 * line
 *
 *     [[<SEVERITY>]] <file name>:<line> <function> - <message>
 *
 * where the file name is the last component of the file path. Printing the
 * line is output and is not modelled; the module models the string.
 */
module Log {

  datatype Option<T> = None | Some(value: T)

  /** The severities; each is represented by a fixed upper-case string. */
  datatype LogType = Error | Warning | Info | Debug

  /** The string a severity is represented by (its raw value). */
  function RawValue(t: LogType): (r: string)
    ensures |r| > 0
    ensures forall i :: 0 <= i < |r| ==> 'A' <= r[i] <= 'Z'
  {
    match t
    case Error => "ERROR"
    case Warning => "WARN"
    case Info => "INFO"
    case Debug => "DEBUG"
  }

  /** The severity a raw string stands for, if any (the failable initialiser from a raw value). */
  function FromRawValue(raw: string): (r: Option<LogType>)
    ensures r.Some? ==> RawValue(r.value) == raw
    ensures r.None? ==> forall t: LogType :: RawValue(t) != raw
  {
    if raw == "ERROR" then Some(Error)
    else if raw == "WARN" then Some(Warning)
    else if raw == "INFO" then Some(Info)
    else if raw == "DEBUG" then Some(Debug)
    else None
  }

  /** Every severity is recovered from its raw value. */
  lemma RawValueRoundTrip(t: LogType)
    ensures FromRawValue(RawValue(t)) == Some(t)
  {
  }

  /** The four raw values are exactly these strings, so no two severities share one. */
  lemma RawValues()
    ensures RawValue(Error) == "ERROR" && RawValue(Warning) == "WARN"
    ensures RawValue(Info) == "INFO" && RawValue(Debug) == "DEBUG"
    ensures forall a: LogType, b: LogType :: RawValue(a) == RawValue(b) ==> a == b
  {
  }

  // ---------------------------------------------------------------------------
  // Path components

  /** `p` ends in a slash. */
  predicate EndsWithSlash(p: string) {
    |p| > 0 && p[|p| - 1] == '/'
  }

  /**
   * `p` without its trailing slashes, except that a path made only of slashes
   * keeps one.
   */
  function TrimTrailingSlashes(p: string): (r: string)
    ensures |r| <= |p| && r == p[..|r|]
    ensures forall i :: |r| <= i < |p| ==> p[i] == '/'
    ensures |p| > 0 ==> |r| > 0
    ensures !EndsWithSlash(r) || r == "/"
    decreases |p|
  {
    if |p| > 1 && p[|p| - 1] == '/' then TrimTrailingSlashes(p[..|p| - 1]) else p
  }

  /** The longest suffix of `p` that holds no slash. */
  function AfterLastSlash(p: string): (r: string)
    ensures |r| <= |p| && r == p[|p| - |r|..]
    ensures '/' !in r
    ensures |r| < |p| ==> p[|p| - |r| - 1] == '/'
    decreases |p|
  {
    if |p| == 0 || p[|p| - 1] == '/' then []
    else AfterLastSlash(p[..|p| - 1]) + [p[|p| - 1]]
  }

  /**
   * The last component of a path, as Foundation's `lastPathComponent` gives it:
   * trailing slashes are ignored, the root path "/" is its own last component,
   * and otherwise the result is what follows the final slash.
   */
  function LastPathComponent(path: string): (r: string)
    ensures '/' in r ==> r == "/"
    ensures '/' !in path ==> r == path
    ensures path != [] ==> r != []
    ensures path != [] && (forall i | 0 <= i < |path| :: path[i] == '/') ==> r == "/"
    ensures path != [] && !EndsWithSlash(path) ==>
              |r| <= |path| && r == path[|path| - |r|..] && '/' !in r &&
              (|r| < |path| ==> path[|path| - |r| - 1] == '/')
  {
    var trimmed := TrimTrailingSlashes(path);
    if trimmed == "/" then trimmed else AfterLastSlash(trimmed)
  }

  /** A slash that follows a non-empty path does not change its last component. */
  lemma LastPathComponentIgnoresTrailingSlash(path: string)
    requires path != []
    ensures LastPathComponent(path + "/") == LastPathComponent(path)
  {
  }

  /** The last component of a directory prefix followed by a slash-free name is that name. */
  lemma LastPathComponentOfJoin(dir: string, name: string)
    requires name != [] && '/' !in name
    ensures LastPathComponent(dir + "/" + name) == name
  {
    var p := dir + "/" + name;
    assert p[|p| - 1] == name[|name| - 1];
    var r := LastPathComponent(p);
    assert p[|p| - |name|..] == name;
    assert p[|p| - |name| - 1] == '/';
  }

  // ---------------------------------------------------------------------------
  // Decimal rendering of the line number

  predicate IsDigit(c: char) {
    '0' <= c <= '9'
  }

  predicate AllDigits(s: string) {
    forall i :: 0 <= i < |s| ==> IsDigit(s[i])
  }

  /** The decimal digit character for `d`. */
  function DigitChar(d: nat): (c: char)
    requires d < 10
    ensures IsDigit(c) && c as int - '0' as int == d
  {
    ('0' as int + d) as char
  }

  /** The decimal representation of `n`, without leading zeros. */
  function NatToString(n: nat): (r: string)
    ensures |r| > 0 && AllDigits(r)
    ensures r[0] == '0' <==> n == 0
    ensures r[0] == '0' ==> r == "0"
    decreases n
  {
    if n < 10 then [DigitChar(n)] else NatToString(n / 10) + [DigitChar(n % 10)]
  }

  /** The number a string of decimal digits denotes. */
  function ParseNat(s: string): nat
    requires AllDigits(s)
    decreases |s|
  {
    if s == [] then 0
    else ParseNat(s[..|s| - 1]) * 10 + (s[|s| - 1] as int - '0' as int)
  }

  /** Reading back the decimal representation of `n` gives `n`. */
  lemma {:induction false} NatToStringRoundTrip(n: nat)
    ensures ParseNat(NatToString(n)) == n
    decreases n
  {
    var s := NatToString(n);
    if n >= 10 {
      assert s[..|s| - 1] == NatToString(n / 10);
      NatToStringRoundTrip(n / 10);
    }
  }

  /** The decimal representation of an integer, with a leading minus sign when it is negative. */
  function IntToString(n: int): (r: string)
    ensures |r| > 0
    ensures r[0] == '-' <==> n < 0
    ensures n >= 0 ==> AllDigits(r)
    ensures n < 0 ==> |r| > 1 && AllDigits(r[1..])
  {
    if n < 0 then "-" + NatToString(-n) else NatToString(n)
  }

  /** The integer a decimal string denotes, if it is one. */
  function ParseInt(s: string): Option<int> {
    if |s| > 1 && s[0] == '-' && AllDigits(s[1..]) then Some(-(ParseNat(s[1..]) as int))
    else if |s| > 0 && AllDigits(s) then Some(ParseNat(s))
    else None
  }

  /** Reading back the decimal representation of any integer gives that integer. */
  lemma IntToStringRoundTrip(n: int)
    ensures ParseInt(IntToString(n)) == Some(n)
  {
    if n < 0 {
      NatToStringRoundTrip(-n);
      assert IntToString(n)[1..] == NatToString(-n);
    } else {
      NatToStringRoundTrip(n);
    }
  }

  // ---------------------------------------------------------------------------
  // The log line

  /**
   * The line a log call builds. The severity defaults to info and the error
   * to none; the error takes no part in the line.
   */
  function FormattedMessage<E>(message: string, logType: LogType := Info, error: Option<E> := None,
                               file: string, functionName: string, line: int): (r: string)
    ensures var head := "[[" + RawValue(logType) + "]] ";
            |r| >= |head| && r[..|head|] == head
    ensures var tail := " - " + message;
            |r| >= |tail| && r[|r| - |tail|..] == tail
  {
    var fileName := LastPathComponent(file);
    var head := "[[" + RawValue(logType) + "]] ";
    var middle := fileName + ":" + IntToString(line) + " " + functionName;
    var tail := " - " + message;
    ThreeParts(head, middle, tail);
    head + middle + tail
  }

  /** A three-part concatenation starts with its first part and ends with its last. */
  lemma ThreeParts(head: string, middle: string, tail: string)
    ensures |head + middle + tail| >= |head| && (head + middle + tail)[..|head|] == head
    ensures |head + middle + tail| >= |tail| &&
            (head + middle + tail)[|head + middle + tail| - |tail|..] == tail
  {
    assert (head + middle + tail)[..|head|] == head;
    assert (head + middle + tail)[|head + middle|..] == tail;
  }

  /** The line depends on the error argument not at all. */
  lemma ErrorIsIgnored<E>(message: string, logType: LogType, e1: Option<E>, e2: Option<E>,
                          file: string, functionName: string, line: int)
    ensures FormattedMessage(message, logType, e1, file, functionName, line)
         == FormattedMessage(message, logType, e2, file, functionName, line)
  {
  }

  /** A call that names no severity and no error logs at info. */
  lemma DefaultIsInfo<E>(message: string, file: string, functionName: string, line: int)
    ensures FormattedMessage<E>(message, file := file, functionName := functionName, line := line)
         == FormattedMessage<E>(message, Info, None, file, functionName, line)
  {
  }

  /** The file part of the line carries the last path component: for a path, the bare file name. */
  lemma FileNameInLine<E>(message: string, logType: LogType, error: Option<E>,
                          dir: string, name: string, functionName: string, line: int)
    requires name != [] && '/' !in name
    ensures var head := "[[" + RawValue(logType) + "]] " + name + ":" + IntToString(line) + " ";
            var r := FormattedMessage(message, logType, error, dir + "/" + name, functionName, line);
            |r| >= |head| && r[..|head|] == head
  {
    LastPathComponentOfJoin(dir, name);
    var head := "[[" + RawValue(logType) + "]] ";
    var lineText := IntToString(line);
    var tail := " - " + message;
    Regroup(head, name, lineText, functionName, tail);
    var prefix := head + name + ":" + lineText + " ";
    assert (prefix + (functionName + tail))[..|prefix|] == prefix;
  }

  /** Regrouping the pieces of a log line around its file-and-line part. */
  lemma Regroup(head: string, fileName: string, lineText: string, functionName: string, tail: string)
    ensures head + (fileName + ":" + lineText + " " + functionName) + tail
         == (head + fileName + ":" + lineText + " ") + (functionName + tail)
  {
  }

  /** The characters of `s` before its first occurrence of `stop`. */
  function TakeUntil(s: string, stop: char): (r: string)
    ensures |r| <= |s| && r == s[..|r|] && stop !in r
    ensures |r| < |s| ==> s[|r|] == stop
    decreases |s|
  {
    if s == [] || s[0] == stop then [] else [s[0]] + TakeUntil(s[1..], stop)
  }

  /** The severity a log line announces, read from between its opening and closing brackets. */
  function ParseLogType(line: string): Option<LogType> {
    if |line| >= 2 && line[..2] == "[[" then FromRawValue(TakeUntil(line[2..], ']')) else None
  }

  /** Whatever the other arguments, the severity is read back from the line. */
  lemma LogTypeRoundTrip<E>(message: string, logType: LogType, error: Option<E>,
                            file: string, functionName: string, line: int)
    ensures ParseLogType(FormattedMessage(message, logType, error, file, functionName, line)) == Some(logType)
  {
    var r := FormattedMessage(message, logType, error, file, functionName, line);
    var raw := RawValue(logType);
    var head := "[[" + raw + "]] ";
    assert r[..|head|] == head;
    assert head[2..2 + |raw|] == raw;
    var rest := r[2..];
    assert rest[..|raw|] == r[..|head|][2..2 + |raw|];
    assert rest[..|raw|] == raw;
    assert rest[|raw|] == ']';
    var taken := TakeUntil(rest, ']');
    assert taken == raw;
    RawValueRoundTrip(logType);
  }
}
