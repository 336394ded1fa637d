/**
 * The `LogOutput` protocol defaults of the multi-output generation. Two files supply them:
 * Sources/BwLogger/LogOutput.swift (emoji level table) and Sources/BwLogger/Output/LogOutput+Ext.swift
 * ("#" level table). Both share `addSeparater` and the two line templates; each is modelled here
 * separately with its own table. Timed lines carry " [timestamp]" after the prefix; untimed
 * lines, used by the example and native sinks, do not.
 */
module BwOutput {
  import opened Text
  import opened BwInformation
  import BwCoreOutput

  /** `prefix(with:)` with a given level table: the record's prefix, even "", takes precedence. */
  function PrefixWith(info: LogInformation, table: Level -> string): (r: string)
    ensures info.prefix.Some? ==> r == info.prefix.value
    ensures info.prefix.None? ==> r == table(info.level)
  {
    match info.prefix
    case Some(p) => p
    case None => table(info.level)
  }

  /** The level table of Sources/BwLogger/LogOutput.swift, which is also the single-output `prefix(for:)`. */
  function LevelPrefix(level: Level): string
  {
    BwCoreOutput.PrefixFor(level)
  }

  /** The level table of Sources/BwLogger/Output/LogOutput+Ext.swift. */
  function HashPrefix(level: Level): string
  {
    match level
    case Log => ""
    case Debug => "#DEBG"
    case Info => "#INFO"
    case Warning => "#WARN"
    case Error => "#🔥"
    case Fault => "#🔥🔥"
  }

  /** The info template: prefix, optional " msg", then " [objectName]". */
  function InfoLine(prefix: string, info: LogInformation): string
  {
    prefix + AddSpacer(" ", info.message) + " [" + info.objectName + "]"
  }

  /** What follows the optional message on every other line: thread, object name, "file: line)". */
  function Trailer(info: LogInformation, env: Env): string
  {
    " [" + ThreadName(env) + "] [" + info.objectName + "] " + FileName(info) + ": " + IntText(info.line) + ")"
  }

  /** The timed template for non-info levels. */
  function TimedLine(prefix: string, info: LogInformation, env: Env): string
  {
    prefix + " [" + DefaultTimestamp(info, env) + "]" + AddSpacer(" ", info.message) + Trailer(info, env)
  }

  /** The untimed template for non-info levels. */
  function UntimedLine(prefix: string, info: LogInformation, env: Env): string
  {
    prefix + AddSpacer(" ", info.message) + Trailer(info, env)
  }

  /** `generateMessage(with:)` given the prefix: info lines are untimed and bare, the rest are timed. */
  function TimedMessage(prefix: string, info: LogInformation, env: Env): (r: string)
    ensures info.level == Level.Info ==> r == InfoLine(prefix, info)
    ensures info.level != Level.Info ==> r == TimedLine(prefix, info, env)
  {
    if info.level == Level.Info then InfoLine(prefix, info) else TimedLine(prefix, info, env)
  }

  /** The same choice for sinks whose non-info lines carry no timestamp. */
  function UntimedMessage(prefix: string, info: LogInformation, env: Env): (r: string)
    ensures info.level == Level.Info ==> r == InfoLine(prefix, info)
    ensures info.level != Level.Info ==> r == UntimedLine(prefix, info, env)
  {
    if info.level == Level.Info then InfoLine(prefix, info) else UntimedLine(prefix, info, env)
  }

  /** `generateMessage(with:)` of Sources/BwLogger/LogOutput.swift. */
  function GenerateMessage(info: LogInformation, env: Env): string
  {
    TimedMessage(PrefixWith(info, LevelPrefix), info, env)
  }

  /** `generateMessage(with:)` of Sources/BwLogger/Output/LogOutput+Ext.swift. */
  function HashGenerateMessage(info: LogInformation, env: Env): string
  {
    TimedMessage(PrefixWith(info, HashPrefix), info, env)
  }

  /** A record prefix, including an empty one, replaces every level table entry. */
  lemma RecordPrefixWins(info: LogInformation, table: Level -> string, other: Level -> string)
    requires info.prefix.Some?
    ensures PrefixWith(info, table) == PrefixWith(info, other) == info.prefix.value
  {
  }

  /** Once a record carries its own prefix, the two protocol defaults write the same line. */
  lemma DefaultsAgreeOnRecordPrefix(info: LogInformation, env: Env)
    requires info.prefix.Some?
    ensures GenerateMessage(info, env) == HashGenerateMessage(info, env)
  {
    RecordPrefixWins(info, LevelPrefix, HashPrefix);
  }

  /** Without one, they write different lines for every level but `.log`. */
  lemma DefaultsDifferWithoutRecordPrefix(info: LogInformation, env: Env)
    requires info.prefix.None? && info.level != Level.Log
    ensures GenerateMessage(info, env) != HashGenerateMessage(info, env)
  {
    var a := LevelPrefix(info.level);
    var b := HashPrefix(info.level);
    TablesDifferBeyondLog(info.level);
    assert a[0] != b[0];
    assert GenerateMessage(info, env)[0] == a[0];
    assert HashGenerateMessage(info, env)[0] == b[0];
  }

  /** The two default tables differ on every level but `.log`, where both are empty. */
  lemma TablesDifferBeyondLog(level: Level)
    ensures LevelPrefix(level) == HashPrefix(level) <==> level == Level.Log
  {
  }

  /** Each table gives distinct levels distinct prefixes. */
  lemma HashPrefixDistinct(a: Level, b: Level)
    requires a != b
    ensures HashPrefix(a) != HashPrefix(b)
  {
  }

  /** An info line never depends on the clock, the thread or the file, whatever the prefix. */
  lemma InfoLineIgnoresEnvironment(prefix: string, info: LogInformation, env: Env, other: Env)
    requires info.level == Level.Info
    ensures TimedMessage(prefix, info, env) == TimedMessage(prefix, info, other)
    ensures TimedMessage(prefix, info, env) == UntimedMessage(prefix, info, other)
  {
  }

  /** A timed non-info message is the untimed one with " [timestamp]" inserted straight after the prefix. */
  lemma TimedIsUntimedWithTimestamp(prefix: string, info: LogInformation, env: Env)
    requires info.level != Level.Info
    ensures TimedMessage(prefix, info, env)
         == prefix + " [" + DefaultTimestamp(info, env) + "]" + (UntimedMessage(prefix, info, env)[|prefix|..])
  {
    var rest := AddSpacer(" ", info.message) + Trailer(info, env);
    assert UntimedMessage(prefix, info, env) == prefix + rest;
    assert (prefix + rest)[|prefix|..] == rest;
  }

  /** With no message, the info line is the prefix and the bracketed object name. */
  lemma EmptyInfoLine(prefix: string, info: LogInformation)
    requires info.message == ""
    ensures InfoLine(prefix, info) == prefix + " [" + info.objectName + "]"
  {
  }
}
