/** The logger object: its threshold, its colour table, and the console
    it writes to. The console is external, so it is recorded as the list
    of argument lists passed to `console.log` and the number of
    `console.clear` calls. */
module Logger {
  import opened JsValues
  import opened Levels
  import opened Formatting

  /** What one `log(level, message)` call hands to `console.log`: one
      argument list when the filter passes, none otherwise. */
  function Emitted(threshold: Value, level: string, message: Value, ts: string,
                   colors: ColorTable, browser: bool): (w: seq<seq<Value>>)
    ensures |w| <= 1
    ensures w != [] <==> CanSend(threshold, level, message)
  {
    if CanSend(threshold, level, message)
    then [Format(message, ParseLevel(level).value, ts, colors, browser)]
    else []
  }

  /** With no threshold set, a call writes nothing, whatever its level
      and message. */
  lemma {:induction false} UnsetEmitsNothing(threshold: Value, level: string, message: Value, ts: string,
                                             colors: ColorTable, browser: bool)
    requires !Truthy(threshold)
    ensures Emitted(threshold, level, message, ts, colors, browser) == []
  {
    UnsetSendsNothing(threshold, level, message);
  }

  /** With `this.levels` holding the four names only, a threshold
      naming no severity makes every call a no-op. */
  lemma {:induction false} UnknownThresholdEmitsNothing(threshold: Value, level: string, message: Value,
                                                        ts: string, colors: ColorTable, browser: bool)
    requires !threshold.Str? || ParseLevel(threshold.s).None?
    ensures Emitted(threshold, level, message, ts, colors, browser) == []
  {
    UnknownThresholdSendsNothing(threshold, level, message);
  }

  /** For a threshold and a level among the four names and a truthy
      message, the call writes exactly once when the level's rank is at
      most the threshold's, and what it writes is the formatted message. */
  lemma {:induction false} EmitsIffRankAtMost(t: Level, l: Level, message: Value, ts: string,
                                              colors: ColorTable, browser: bool)
    requires Truthy(message)
    ensures var w := Emitted(Str(t.Name()), l.Name(), message, ts, colors, browser);
      if l.Rank() <= t.Rank() then w == [Format(message, l, ts, colors, browser)] else w == []
  {
    SendsIffRankAtMost(t, l, message);
    ParseName(l);
  }

  class LoggerBrowser {
    /** `#colors`, chosen once by the constructor. */
    var colors: ColorTable
    /** `#level`, the threshold: any value; under `CanSend` only a
        severity name lets anything through. */
    var level: Value
    /** The argument lists passed to `console.log`, oldest first. */
    ghost var output: seq<seq<Value>>
    /** The number of `console.clear` calls. */
    ghost var clears: nat
    /** The detector's answer when the logger was built. */
    ghost var builtInBrowser: bool

    /** The colour table is the one the detector's answer at construction
        selected. */
    ghost predicate Valid()
      reads this
    {
      colors == ColorsFor(builtInBrowser)
    }

    /** `new LoggerBrowser(level)`, with `browser` the detector's answer
        at construction. */
    constructor (level: Value, browser: bool)
      ensures Valid()
      ensures this.colors == ColorsFor(browser)
      ensures this.level == level
      ensures builtInBrowser == browser
      ensures output == [] && clears == 0
    {
      builtInBrowser := browser;
      colors := ColorsFor(browser);
      this.level := level;
      output := [];
      clears := 0;
    }

    /** `setLevel(level)`: the new threshold is the argument, whatever the
        old one was, so setting the same value twice is setting it once. */
    method SetLevel(level: Value)
      requires Valid()
      modifies this`level
      ensures Valid()
      ensures this.level == level
    {
      this.level := level;
    }

    /** `removeLevel()`: the threshold becomes "" and nothing passes. */
    method RemoveLevel()
      requires Valid()
      modifies this`level
      ensures Valid()
      ensures level == Str("")
      ensures !Truthy(level)
    {
      SetLevel(Str(""));
    }

    /** `clear()`: clears the console whatever the threshold and returns
        the logger itself. */
    method Clear() returns (self: LoggerBrowser)
      requires Valid()
      modifies this`clears
      ensures Valid()
      ensures self == this
      ensures clears == old(clears) + 1
    {
      clears := clears + 1;
      self := this;
    }

    /** `log(level, message)` with `ts` the clock's ISO timestamp and
        `browser` the detector's answer at the time of the call: writes
        the formatted message once when `#canSend` passes, else nothing. */
    method Log(level: string, message: Value, ts: string, browser: bool)
      requires Valid()
      modifies this`output
      ensures Valid()
      ensures output == old(output) + Emitted(this.level, level, message, ts, colors, browser)
      ensures browser == builtInBrowser && CanSend(this.level, level, message) &&
              !IsObject(message) && '%' !in ts ==>
        var l := ParseLevel(level).value;
        var line := Line(ts, Upper(level), ToString(message));
        output == old(output) +
          [if browser then [Str("%c" + line), Str(Color(BrowserColors, l))]
           else [Str(Color(NodeColors, l) + line + "\U{1B}[0m")]]
    {
      if !CanSend(this.level, level, message) {
        return;
      }
      var l := ParseLevel(level).value;
      var formatted := Format(message, l, ts, colors, browser);
      if browser == builtInBrowser && !IsObject(message) && '%' !in ts {
        FormatWithMatchingTable(message, l, ts, browser);
      }
      output := output + [formatted];
    }

    /** `warn(message)`: `log("warn", message)`. */
    method Warn(message: Value, ts: string, browser: bool)
      requires Valid()
      modifies this`output
      ensures Valid()
      ensures output == old(output) + Emitted(level, Level.Warn.Name(), message, ts, colors, browser)
    {
      Log(Level.Warn.Name(), message, ts, browser);
    }

    /** `info(message)`: `log("info", message)`. */
    method Info(message: Value, ts: string, browser: bool)
      requires Valid()
      modifies this`output
      ensures Valid()
      ensures output == old(output) + Emitted(level, Level.Info.Name(), message, ts, colors, browser)
    {
      Log(Level.Info.Name(), message, ts, browser);
    }

    /** `debug(message)`: `log("debug", message)`. */
    method Debug(message: Value, ts: string, browser: bool)
      requires Valid()
      modifies this`output
      ensures Valid()
      ensures output == old(output) + Emitted(level, Level.Debug.Name(), message, ts, colors, browser)
    {
      Log(Level.Debug.Name(), message, ts, browser);
    }

    /** `error(message)`: `log("error", message)`. */
    method Error(message: Value, ts: string, browser: bool)
      requires Valid()
      modifies this`output
      ensures Valid()
      ensures output == old(output) + Emitted(level, Level.Error.Name(), message, ts, colors, browser)
    {
      Log(Level.Error.Name(), message, ts, browser);
    }
  }
}
