/** The four severities, their fixed order, and the filter that decides
    whether a message is written (`#canSend`). */
module Levels {
  import opened JsValues

  datatype Option<T> = None | Some(value: T)

  /** A severity, from least to most verbose. */
  datatype Level = Error | Warn | Info | Debug {

    /** The severity's name as callers pass it. */
    function Name(): string {
      match this
      case Error => "error"
      case Warn => "warn"
      case Info => "info"
      case Debug => "debug"
    }

    /** Position in the verbosity order: error 0, warn 1, info 2, debug 3. */
    function Rank(): nat {
      match this
      case Error => 0
      case Warn => 1
      case Info => 2
      case Debug => 3
    }
  }

  /** The private list `#levels`, whose positions give the order. */
  const LevelOrder: seq<string> := ["error", "warn", "info", "debug"]

  /** The public table `levels`, mapping each name to itself. */
  const LevelTable: map<string, string> :=
    map["debug" := "debug", "error" := "error", "info" := "info", "warn" := "warn"]

  /** The severity a string names, if any. */
  function ParseLevel(s: string): (r: Option<Level>)
    ensures r.Some? ==> r.value.Name() == s
    ensures r.None? ==> forall l: Level :: l.Name() != s
  {
    if s == "error" then Some(Error)
    else if s == "warn" then Some(Warn)
    else if s == "info" then Some(Info)
    else if s == "debug" then Some(Debug)
    else None
  }

  /** Every severity name reads back as that severity. */
  lemma ParseName(l: Level)
    ensures ParseLevel(l.Name()) == Some(l)
  {
  }

  /** The position of a name in `#levels` is the rank of the severity it
      names, and -1 for any other string. */
  lemma {:induction false} IndexOfLevelOrder(s: string)
    ensures IndexOf(LevelOrder, s) ==
      (match ParseLevel(s) case Some(l) => l.Rank() case None => -1)
  {
    var i := IndexOf(LevelOrder, s);
    if i >= 0 {
      assert LevelOrder[i] == s;
      assert ParseLevel(s).Some?;
    } else {
      assert s !in LevelOrder;
    }
  }

  /** `this.levels[level]` is truthy exactly for the four names. */
  lemma LevelTableKeys(s: string)
    ensures s in LevelTable && LevelTable[s] != "" <==> ParseLevel(s).Some?
  {
  }

  /** `#levels.indexOf(v)`: strict equality, so only a string can be found. */
  function IndexOfValue(v: Value): int {
    if v.Str? then IndexOf(LevelOrder, v.s) else -1
  }

  /** Whether threshold `t` lets a message of severity `l` through. */
  predicate Permits(t: Level, l: Level) {
    l.Rank() <= t.Rank()
  }

  /** The steps of `#canSend` once the lookup `this.levels[level]` has
      been decided (`listed`): threshold, message and level truthy, the
      level listed, and its index in `#levels` at most the threshold's. */
  function Filter(threshold: Value, level: string, message: Value, listed: bool): bool {
    if !Truthy(threshold) || !Truthy(message) || level == "" then false
    else if !listed then false
    else IndexOfValue(threshold) >= IndexOf(LevelOrder, level)
  }

  /** `#canSend(level, message)` with the current threshold `threshold`,
      where `this.levels` holds the four names only. The result holds
      exactly when both name severities, the message is truthy and the
      threshold permits the level. */
  function CanSend(threshold: Value, level: string, message: Value): (r: bool)
    ensures r <==>
      Truthy(message) && threshold.Str? &&
      ParseLevel(threshold.s).Some? && ParseLevel(level).Some? &&
      Permits(ParseLevel(threshold.s).value, ParseLevel(level).value)
  {
    IndexOfLevelOrder(level);
    IndexOfLevelOrder(if threshold.Str? then threshold.s else "");
    LevelTableKeys(level);
    Filter(threshold, level, message, level in LevelTable && LevelTable[level] != "")
  }

  /** Keys every object inherits from `Object.prototype`; each holds a
      function or an object, so `this.levels[key]` is truthy for them. */
  const PrototypeKeys: set<string> := {
    "__proto__", "__defineGetter__", "__defineSetter__", "__lookupGetter__",
    "__lookupSetter__", "constructor", "hasOwnProperty", "isPrototypeOf",
    "propertyIsEnumerable", "toLocaleString", "toString", "valueOf"}

  /** `#canSend` as written, with the inherited keys of `this.levels`
      also answering truthy. */
  function CanSendAsWritten(threshold: Value, level: string, message: Value): bool {
    Filter(threshold, level, message,
           (level in LevelTable && LevelTable[level] != "") || level in PrototypeKeys)
  }

  /** As written, an inherited key such as "toString" passes the filter
      under every truthy threshold, named or not, since its index in
      `#levels` is -1 and no index is below -1; `CanSend`, the filter the
      model uses, rejects it. */
  lemma {:induction false} PrototypeKeyPassesAsWritten(threshold: Value, key: string, message: Value)
    requires Truthy(threshold) && key in PrototypeKeys && Truthy(message)
    ensures ParseLevel(key).None?
    ensures CanSendAsWritten(threshold, key, message)
    ensures !CanSend(threshold, key, message)
  {
    assert |key| >= 7 by { PrototypeKeysAreLong(key); }
    assert ParseLevel(key).None?;
    IndexOfLevelOrder(key);
    assert IndexOfValue(threshold) >= -1;
  }

  /** Every inherited key is longer than every severity name. */
  lemma PrototypeKeysAreLong(key: string)
    requires key in PrototypeKeys
    ensures |key| >= 7
  {
  }

  /** With no threshold (undefined, null or "", as after `removeLevel`)
      nothing is ever sent. */
  lemma UnsetSendsNothing(threshold: Value, level: string, message: Value)
    requires !Truthy(threshold)
    ensures !CanSend(threshold, level, message)
  {
  }

  /** With `this.levels` holding the four names only, a threshold that
      names no severity fails closed: nothing is sent. */
  lemma UnknownThresholdSendsNothing(threshold: Value, level: string, message: Value)
    requires !threshold.Str? || ParseLevel(threshold.s).None?
    ensures !CanSend(threshold, level, message)
  {
  }

  /** With `this.levels` holding the four names only, a falsy message
      or an unknown level is never sent. */
  lemma FalsyOrUnknownSendsNothing(threshold: Value, level: string, message: Value)
    requires !Truthy(message) || ParseLevel(level).None?
    ensures !CanSend(threshold, level, message)
  {
  }

  /** For a threshold and a level both among the four names, a truthy
      message is sent exactly when the level's rank is at most the
      threshold's. */
  lemma SendsIffRankAtMost(t: Level, l: Level, message: Value)
    requires Truthy(message)
    ensures CanSend(Str(t.Name()), l.Name(), message) <==> l.Rank() <= t.Rank()
  {
    ParseName(t);
    ParseName(l);
  }
}
