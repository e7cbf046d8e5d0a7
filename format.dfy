/** The colour tables and the message formatter (`#format`). */
module Formatting {
  import opened JsValues
  import opened Levels

  /** A colour table: one style token per severity plus the tokens that go
      before (`start`) and after (`end`) a line. */
  datatype ColorTable = ColorTable(
    debug: string, end: string, error: string, info: string, start: string, warn: string)

  /** `browserColors`: CSS text for the `%c` directive. */
  const BrowserColors := ColorTable(
    debug := "color : #00ffff",
    end := "",
    error := "color : #ff0000",
    info := "color : #ff00ff",
    start := "%c",
    warn := "color : #ffff00")

  /** `nodeColor`: ANSI escape sequences for a terminal. */
  const NodeColors := ColorTable(
    debug := "\U{1B}[36m",
    end := "\U{1B}[0m",
    error := "\U{1B}[31m",
    info := "\U{1B}[33m",
    start := "\U{1B}[2m",
    warn := "\U{1B}[35m")

  /** The table chosen at construction from the environment detector. */
  function ColorsFor(browser: bool): ColorTable {
    if browser then BrowserColors else NodeColors
  }

  /** `colors[level]` for one of the four severities. */
  function Color(colors: ColorTable, l: Level): string {
    match l
    case Error => colors.error
    case Warn => colors.warn
    case Info => colors.info
    case Debug => colors.debug
  }

  /** `#messageFormat`. */
  const MessageFormat := "[%t] [%l] - [%m]"

  /** The template filled in by three successive `replace` calls: the
      timestamp, the upper-cased level, then the message. */
  function MessageBase(ts: string, upper: string, msg: string): string {
    ReplaceFirst(ReplaceFirst(ReplaceFirst(MessageFormat, "%t", ts), "%l", upper), "%m", msg)
  }

  /** The line `[<ts>] [<LEVEL>] - [<message>]` written out directly. */
  function Line(ts: string, upper: string, msg: string): string {
    "[" + ts + "] [" + upper + "] - [" + msg + "]"
  }

  /** When neither the timestamp nor the level contains `%` (an ISO-8601
      timestamp never does), the three replacements amount to plain
      concatenation into the template's shape. */
  lemma MessageBaseSpelledOut(ts: string, upper: string, msg: string)
    requires '%' !in ts && '%' !in upper
    ensures MessageBase(ts, upper, msg) == Line(ts, upper, msg)
  {
    FillTimestamp(ts);
    FillLevel(ts, upper);
    FillMessage(ts, upper, msg);
  }

  /** The first `replace` puts the timestamp in place of `%t`. */
  lemma FillTimestamp(ts: string)
    ensures ReplaceFirst(MessageFormat, "%t", ts) == "[" + ts + "] [%l] - [%m]"
  {
    assert MessageFormat == "[" + "%t" + "] [%l] - [%m]";
    ReplaceFirstAfter("[", "%t", ts, "] [%l] - [%m]");
  }

  /** The second `replace` puts the level in place of `%l`. */
  lemma FillLevel(ts: string, upper: string)
    requires '%' !in ts
    ensures ReplaceFirst("[" + ts + "] [%l] - [%m]", "%l", upper) == "[" + ts + "] [" + upper + "] - [%m]"
  {
    var a := "[" + ts + "] [";
    assert '%' !in a;
    assert "[" + ts + "] [%l] - [%m]" == a + "%l" + "] - [%m]";
    ReplaceFirstAfter(a, "%l", upper, "] - [%m]");
  }

  /** The third `replace` puts the message in place of `%m`. */
  lemma FillMessage(ts: string, upper: string, msg: string)
    requires '%' !in ts && '%' !in upper
    ensures ReplaceFirst("[" + ts + "] [" + upper + "] - [%m]", "%m", msg) == Line(ts, upper, msg)
  {
    var a := "[" + ts + "] [" + upper + "] - [";
    assert '%' !in a;
    assert "[" + ts + "] [" + upper + "] - [%m]" == a + "%m" + "]";
    ReplaceFirstAfter(a, "%m", msg, "]");
  }

  /** The upper-cased names of the four severities. */
  lemma UpperNames(l: Level)
    ensures Upper(l.Name()) ==
      match l
      case Error => "ERROR"
      case Warn => "WARN"
      case Info => "INFO"
      case Debug => "DEBUG"
    ensures '%' !in Upper(l.Name())
  {
  }

  /** `#format(message, level)` with `ts` the ISO timestamp taken from the
      clock and `browser` the detector's answer at the time of the call.
      An object message is passed through alone; otherwise the template is
      filled and wrapped for the browser (`%c` directive plus CSS argument)
      or for a terminal (escape code before, reset after). */
  function Format(message: Value, l: Level, ts: string, colors: ColorTable, browser: bool): (r: seq<Value>)
    ensures IsObject(message) ==> r == [message]
    ensures !IsObject(message) ==> |r| == (if browser then 2 else 1) && r[0].Str?
  {
    if IsObject(message) then [message]
    else
      var base := MessageBase(ts, Upper(l.Name()), ToString(message));
      if browser then [Str(colors.start + base), Str(Color(colors, l))]
      else [Str(Color(colors, l) + base + colors.end)]
  }

  /** Terminal output: one string, the level's token, the filled template
      and the end token. */
  lemma FormatTerminal(message: Value, l: Level, ts: string, colors: ColorTable)
    requires !IsObject(message) && '%' !in ts
    ensures Format(message, l, ts, colors, false) ==
      [Str(Color(colors, l) + Line(ts, Upper(l.Name()), ToString(message)) + colors.end)]
  {
    UpperNames(l);
    MessageBaseSpelledOut(ts, Upper(l.Name()), ToString(message));
  }

  /** Browser output: two arguments, the start token glued to the filled
      template, and the level's token as the out-of-band style. */
  lemma FormatBrowser(message: Value, l: Level, ts: string, colors: ColorTable)
    requires !IsObject(message) && '%' !in ts
    ensures Format(message, l, ts, colors, true) ==
      [Str(colors.start + Line(ts, Upper(l.Name()), ToString(message))), Str(Color(colors, l))]
  {
    UpperNames(l);
    MessageBaseSpelledOut(ts, Upper(l.Name()), ToString(message));
  }

  /** With the browser table in a browser, the first argument starts with
      the `%c` directive that consumes the second, the level's CSS text;
      with the terminal table in a terminal the line is wrapped in the
      level's escape code and the reset code. */
  lemma FormatWithMatchingTable(message: Value, l: Level, ts: string, browser: bool)
    requires !IsObject(message) && '%' !in ts
    ensures var r := Format(message, l, ts, ColorsFor(browser), browser);
      var line := Line(ts, Upper(l.Name()), ToString(message));
      if browser then r == [Str("%c" + line), Str(Color(BrowserColors, l))]
      else r == [Str(Color(NodeColors, l) + line + "\U{1B}[0m")]
  {
    if browser {
      FormatBrowser(message, l, ts, BrowserColors);
    } else {
      FormatTerminal(message, l, ts, NodeColors);
    }
  }
}
