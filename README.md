# LoggerBrowser in Dafny

A model of `LoggerBrowser`, a small levelled logger for the browser and
for Node. A logger holds a threshold, which may be any value; the
severities are `error`, `warn`, `info` and `debug`, from least to most
verbose. A call `log(level, message)` writes to the console only when the
threshold is a severity name, the message is truthy, the level is one of
the four names, and the level is no more verbose than the threshold. So an
unset threshold (`undefined`, `null` or `""`) lets nothing through, and so
does any other threshold that is not a severity name. The one exception
in the code is a level that is a key every object inherits, such as
`toString`: it passes under any truthy threshold (see Findings). The
model's filter `CanSend` keeps to the four names. What a call writes is either the
message object itself, or a line `[<timestamp>] [<LEVEL>] - [<message>]`
wrapped in the colour tokens of the environment: a `%c` directive plus a
CSS argument in a browser, ANSI escape codes in a terminal.

Modules:

- `JsValues` (`js_values.dfy`): the JavaScript values the logger tells
  apart (`undefined`, `null`, strings, objects), truthiness,
  `typeof === "object"`, `String(v)`, `Array.prototype.indexOf`,
  `String.prototype.replace` with a string pattern, `toUpperCase`.
- `Levels` (`levels.dfy`): the severities, the `#levels` order, the
  public `levels` table, and the filter `#canSend`.
- `Formatting` (`format.dfy`): the colour tables `browserColors` and
  `nodeColor`, the template `#messageFormat`, and `#format`.
- `Logger` (`logger.dfy`): the class `LoggerBrowser` with its threshold
  (`#level`) and colour table (`#colors`) as fields, and the console as a
  ghost record of `console.log` argument lists and `console.clear` calls.

External inputs become parameters: the clock's ISO timestamp (`ts`) and
the environment detector's answer (`browser`). The detector is consulted
by the constructor (to pick the colour table) and again by each format
call that templates a message (an object message returns before the
detector is asked); the model takes the two answers separately and does
not assume they agree. `FormatWithMatchingTable` and the second
postcondition of `Log` state the output when they do.

Each call takes one message argument: there is no space-joining of several
values, and the object test applies to that one value. The threshold is
whatever the constructor is given (`undefined` when omitted, which lets
nothing through). `null` counts as an object for `#format` but never
reaches it, since it is falsy.

## Model

| member | source | states |
|---|---|---|
| `JsValues.IndexOf` | logger-browser.js:65 | `indexOf` gives -1 exactly when the value is absent, otherwise a position holding it with no earlier occurrence |
| `JsValues.Truthy` | logger-browser.js:63 | no contract of its own: `undefined`, `null` and `""` are falsy, every other value truthy; used by `Levels.CanSend` |
| `JsValues.IsObject` | logger-browser.js:74 | no contract of its own: `typeof v === "object"`, true for objects and for `null`; characterised through `Formatting.Format` |
| `JsValues.ToString` | logger-browser.js:83 | no contract of its own: `String(message)` as `replace` converts its replacement; every message reaching it is a non-empty string, where it is the identity; used by `Formatting.FormatTerminal` and `Formatting.FormatBrowser` |
| `JsValues.ReplaceFirst` | logger-browser.js:81-83 | a string without the pattern's first character comes back unchanged, and the length either stays or changes by one substitution; characterised further by `JsValues.ReplaceFirstAfter` |
| `JsValues.ReplaceFirstAfter` | logger-browser.js:80-83 | `replace` substitutes the first occurrence: if the pattern's first character does not occur before an occurrence, that occurrence is replaced and the rest is kept |
| `JsValues.Upper` | logger-browser.js:76 | upper-casing keeps the length and maps each character to its upper case |
| `Levels.ParseLevel` | logger-browser.js:27-32 | a string names a severity only if that severity's name is the string; otherwise it names none |
| `Levels.ParseName` | logger-browser.js:27-32 | every severity name reads back as that severity |
| `Levels.IndexOfLevelOrder` | logger-browser.js:43 | the index of a string in `#levels` is the rank of the severity it names (error 0 … debug 3), and -1 for any other string |
| `Levels.LevelTableKeys` | logger-browser.js:27-32 | `this.levels[level]` is truthy exactly for the four severity names |
| `Levels.IndexOfValue` | logger-browser.js:65 | no contract of its own: `#levels.indexOf(this.#level)`, -1 for any non-string; characterised through `Levels.IndexOfLevelOrder` and `Levels.CanSend` |
| `Levels.Filter` | logger-browser.js:63-65 | no contract of its own: the steps of `#canSend` once the table lookup is decided; characterised by `Levels.CanSend` |
| `Levels.CanSend` | logger-browser.js:62-66 | the filter passes iff the message is truthy, the threshold and the level are both severity names, and the level's rank is at most the threshold's |
| `Levels.UnsetSendsNothing` | logger-browser.js:63 | with the threshold undefined, null or "" nothing passes, for any level and message |
| `Levels.UnknownThresholdSendsNothing` | logger-browser.js:65 | with `this.levels` holding the four names only, a threshold that is not one of the four names fails closed: nothing passes |
| `Levels.FalsyOrUnknownSendsNothing` | logger-browser.js:63-64 | a falsy message or an unknown level never passes, whatever the threshold |
| `Levels.SendsIffRankAtMost` | logger-browser.js:65 | for a threshold and a level among the four names and a truthy message, the filter passes iff rank(level) <= rank(threshold) (threshold warn passes error and warn, not info or debug) |
| `Levels.CanSendAsWritten` | logger-browser.js:62-66 | no contract of its own: `#canSend` with the inherited keys of `this.levels` answering truthy; characterised by `Levels.PrototypeKeyPassesAsWritten` |
| `Levels.PrototypeKeyPassesAsWritten` | logger-browser.js:64-65 | as written, an inherited key such as `toString` names no severity yet passes the filter under every truthy threshold (named or not, such as "verbose" or an object) with a truthy message, while `CanSend` rejects it |
| `Formatting.ColorsFor` | logger-browser.js:21-25 | no contract of its own: the browser table when the detector says browser, else the terminal table; used by `Logger.LoggerBrowser.constructor` and `Formatting.FormatWithMatchingTable` |
| `Formatting.Color` | logger-browser.js:78 | no contract of its own: `this.#colors[level]` for a severity; its values appear in `Formatting.FormatWithMatchingTable` |
| `Formatting.MessageBase` | logger-browser.js:80-83 | no contract of its own: the three chained `replace` calls on `#messageFormat`; characterised by `Formatting.MessageBaseSpelledOut` |
| `Formatting.FillTimestamp` | logger-browser.js:81 | the first `replace` puts the timestamp where `%t` was |
| `Formatting.FillLevel` | logger-browser.js:82 | the second `replace` puts the level where `%l` was, when the timestamp has no `%` |
| `Formatting.FillMessage` | logger-browser.js:83 | the third `replace` puts the message where `%m` was, when timestamp and level have no `%` |
| `Formatting.MessageBaseSpelledOut` | logger-browser.js:80-83 | filling `[%t] [%l] - [%m]` by three `replace` calls yields `[ts] [LEVEL] - [message]` whenever timestamp and level contain no `%` |
| `Formatting.UpperNames` | logger-browser.js:76 | the upper-cased severity names are ERROR, WARN, INFO, DEBUG, none containing `%` |
| `Formatting.Format` | logger-browser.js:73-90 | an object message comes back alone and untemplated; any other gives one string argument in a terminal and two, the first a string, in a browser |
| `Formatting.FormatTerminal` | logger-browser.js:76-88 | terminal output is the single string level token + `[ts] [LEVEL] - [message]` + end token |
| `Formatting.FormatBrowser` | logger-browser.js:76-86 | browser output is exactly two arguments: start token + `[ts] [LEVEL] - [message]`, then the level's style token |
| `Formatting.FormatWithMatchingTable` | logger-browser.js:1-17 | with the table matching the environment, the browser line begins with `%c` and carries the level's CSS as second argument, and the terminal line ends with the reset code `ESC[0m` |
| `Logger.Emitted` | logger-browser.js:125-133 | a `log` call writes at most one argument list, and one exactly when `#canSend` passes |
| `Logger.UnsetEmitsNothing` | logger-browser.js:58-63 | after `removeLevel` (or with no threshold) `log` writes nothing for any level or message |
| `Logger.UnknownThresholdEmitsNothing` | logger-browser.js:55-56 | with `this.levels` holding the four names only, after `setLevel` with anything but a severity name every `log` is a no-op |
| `Logger.EmitsIffRankAtMost` | logger-browser.js:125-133 | for named threshold and level and a truthy message, `log` writes the formatted message once iff rank(level) <= rank(threshold), and nothing otherwise |
| `Logger.LoggerBrowser.constructor` | logger-browser.js:20-33 | the colour table is the browser table iff the detector says browser, and that answer is remembered; the threshold is the argument; the console record starts empty |
| `Logger.LoggerBrowser.SetLevel` | logger-browser.js:55-57 | the threshold becomes the argument regardless of its old value, so setting it twice equals setting it once |
| `Logger.LoggerBrowser.RemoveLevel` | logger-browser.js:58-60 | the threshold becomes "" (falsy), so nothing passes afterwards |
| `Logger.LoggerBrowser.Clear` | logger-browser.js:68-71 | clears the console once, whatever the threshold, and returns the same instance |
| `Logger.LoggerBrowser.Log` | logger-browser.js:125-133 | the console record grows by exactly what `Emitted` gives: the formatted message once when the filter passes, nothing otherwise; threshold and colours unchanged; when the detector answers as it did at construction, the write is `%c` + line with the level's CSS in a browser, or escape code + line + reset in a terminal |
| `Logger.LoggerBrowser.Warn` | logger-browser.js:95-97 | behaves exactly as `log("warn", message)`; the colour argument the source passes is ignored by `log` |
| `Logger.LoggerBrowser.Info` | logger-browser.js:102-104 | behaves exactly as `log("info", message)` |
| `Logger.LoggerBrowser.Debug` | logger-browser.js:109-111 | behaves exactly as `log("debug", message)` |
| `Logger.LoggerBrowser.Error` | logger-browser.js:116-118 | behaves exactly as `log("error", message)` |

## Left out

- `console.log` and `console.clear` are an external sink: modelled as a ghost list of argument lists and a ghost count of clears.
- `new Date().toISOString()` is the clock: the timestamp is a parameter `ts`; the template lemmas assume it contains no `%`, which an ISO-8601 timestamp never does.
- `#browserDetector` inspects the host's `process` object: its answer is a boolean parameter, given separately to the constructor and to each logging call.
- The special replacement patterns of `replace` (`$&`, `$$`, `` $` ``, `$'`) in a message or timestamp are not modelled; the replacement is inserted literally.
- JavaScript numbers, booleans and other primitives as messages or thresholds are not modelled; values are `undefined`, `null`, strings and non-callable objects.
- Function messages are not modelled: `typeof` gives "function" for them, so they are not passed through untemplated; they go through the template, where `replace` calls the function as a replacer and inserts what it returns.
- The level argument of `log` is a string, and in `CanSend` the lookup `this.levels[level]` is membership among the four keys; so `Levels.LevelTableKeys`, `Levels.FalsyOrUnknownSendsNothing`, `Levels.UnknownThresholdSendsNothing` and `Logger.UnknownThresholdEmitsNothing` hold only for that four-key table. As written, inherited keys such as `toString`, `constructor` or `__proto__` are truthy too and pass under any truthy threshold, named or not, writing a line whose colour is the inherited member (a function, or `Object.prototype` for `__proto__`) (see Findings; `Levels.CanSendAsWritten` models the filter half of this). Callers reassigning the public `levels` object or adding keys to it are not modelled (an added key such as `trace` would likewise pass under any truthy threshold, its index in `#levels` being -1).
- `Upper`: upper-cases ASCII letters only, not full Unicode case mapping; it is only ever applied to the four severity names.
- The colour argument the per-severity methods pass to `log` is dropped, since `log` takes only two parameters.

## Findings

| source | as written | input that shows it | evidently intended | confidence | as-written member | corrected member |
|---|---|---|---|---|---|---|
| logger-browser.js:64-65 | `this.levels[level]` also finds keys inherited from `Object.prototype`, and their index in `#levels` is -1, which is at most any threshold's index | `setLevel("error")` or `setLevel("verbose")`, then `log("toString", "x")`: the filter passes and a line is written | only the four severity names pass, and an unknown level writes nothing | high (not executed) | `Levels.PrototypeKeyPassesAsWritten` | `Levels.CanSend` |
