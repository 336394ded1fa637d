/**
 * Sources/BwLogger/Core/LogOutput.swift: the `LogOutput` protocol's default prefix table and
 * `generateMessage(with:)`. The default `generateMessage` is written for a record whose prefix is
 * optional and that has an `objectName`; this generation's record has a plain prefix and a
 * `methodName`, so the record's prefix is always the one used and `methodName` stands in
 * for `objectName`.
 */
module BwCoreOutput {
  import opened Runtime
  import opened Text
  import opened BwCoreInformation

  /** `prefix(for:)`. */
  function PrefixFor(level: Level): string
  {
    match level
    case Log => ""
    case Debug => "🛠DEBUG"
    case Info => "🔵INFOM"
    case Warning => "⚠️WARNG"
    case Error => "🔥ERROR"
    case Fault => "🔥🔥🔥🔥"
  }

  /** The info template: no timestamp, thread or file. */
  function InfoMessage(info: LogInformation): string
  {
    info.prefix + AddSpacer(" ", info.message) + " [" + MethodName(info) + "]"
  }

  /** What follows the optional message on every other line: thread, method name, "file: line)". */
  function Trailer(info: LogInformation, env: Env): string
  {
    " [" + ThreadName(env.thread) + "] [" + MethodName(info) + "] " + FileName(info) + ": " + IntText(info.line) + ")"
  }

  /** The template of every other level. */
  function DetailedMessage(info: LogInformation, env: Env): string
  {
    info.prefix + " [" + Timestamp(info, env) + "]" + AddSpacer(" ", info.message) + Trailer(info, env)
  }

  /** `generateMessage(with:)`. */
  function GenerateMessage(info: LogInformation, env: Env): (r: string)
    ensures info.level == Info ==> r == InfoMessage(info)
    ensures info.level != Info ==> r == DetailedMessage(info, env)
  {
    if info.level == Info then InfoMessage(info) else DetailedMessage(info, env)
  }

  /** Only the non-info lines depend on the clock and the thread. */
  lemma InfoLineIgnoresEnvironment(info: LogInformation, env: Env, other: Env)
    requires info.level == Info
    ensures GenerateMessage(info, env) == GenerateMessage(info, other)
  {
  }

  /** A non-info line carries the record's stored date right after its prefix. */
  lemma DetailedLineStartsWithTimestamp(info: LogInformation, env: Env)
    requires info.level != Info
    ensures info.prefix + " [" + Timestamp(info, env) + "]" <= GenerateMessage(info, env)
  {
    var head := info.prefix + " [" + Timestamp(info, env) + "]";
    var rest := AddSpacer(" ", info.message) + Trailer(info, env);
    assert DetailedMessage(info, env) == head + rest;
    PrefixOfAppend(head, rest);
  }

  /** The table's values tell the levels apart. */
  lemma PrefixForDistinct(a: Level, b: Level)
    requires a != b
    ensures PrefixFor(a) != PrefixFor(b)
  {
  }
}
