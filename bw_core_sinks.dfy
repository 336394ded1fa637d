/**
 * The outputs written against the single-output record (Sources/BwLogger/Output/Logger+print.swift,
 * Logger+Console.swift, Logger+oslog.swift and Logger+File.swift). The first two both declare a
 * class `PrintLogger`; here they are the two sink kinds `PrintLogger` and `ConsolePrintLogger`.
 */
module BwCoreSinks {
  import opened Runtime
  import opened Text
  import opened BwCoreInformation
  import Effects

  /**
   * The sinks. `OsLogger`'s initialiser ignores its subsystem and category: every message goes to
   * one file-level `os.Logger`. `FileLogger` talks to its injected dependency through the trace.
   * `Custom` stands for any other `LogOutput` a caller supplies; it is recorded as receiving the record.
   */
  datatype Output = PrintLogger | ConsolePrintLogger | OsLogger | FileLogger | Custom(id: nat)

  /** What the sinks do to the world. */
  datatype Event =
    | Printed(text: string)                               // print(_:)
    | NativeLog(category: OsLogCategory, text: string)    // os.Logger.<category>(_:)
    | LegacyOsLog(text: string)                           // the pre-iOS 14 `os_log` call
    | FileOpened                                          // dependency.open()
    | FileWritten(text: string)                           // dependency.write(_:)
    | FileClosed                                          // dependency.close()
    | Received(id: nat, info: LogInformation)             // a caller-supplied output's log(_:)

  /** The separator before the method name: " --" exactly when there is a message. */
  function Separator(message: string): (r: string)
    ensures r == " --" <==> message != ""
    ensures r == "" <==> message == ""
  {
    if message == "" then "" else " --"
  }

  /** The template the print, os_log and file sinks share. */
  function SeparatedLine(info: LogInformation, env: Env): string
  {
    if info.level == Info then
      info.prefix + AddSpacer(" ", info.message) + Separator(info.message) + " " + MethodName(info)
    else
      info.prefix + " [" + Timestamp(info, env) + "] [" + ThreadName(env.thread) + "]"
      + AddSpacer(" ", info.message) + Separator(info.message) + " " + MethodName(info)
      + " " + FileName(info) + ":" + IntText(info.line) + ")"
  }

  /** The console variant: " -- " whatever the message, and no method name on info lines. */
  function ConsoleLine(info: LogInformation, env: Env): string
  {
    if info.level == Info then
      info.prefix + AddSpacer(" ", info.message) + " -- " + FileName(info) + ":" + IntText(info.line)
    else
      info.prefix + " [" + Timestamp(info, env) + "] [" + ThreadName(env.thread) + "]"
      + AddSpacer(" ", info.message) + " -- " + MethodName(info) + " " + FileName(info) + ":" + IntText(info.line) + ")"
  }

  /** The native entry point each level goes to. */
  function Route(level: Level): (c: OsLogCategory)
    ensures CategoryName(c) == RawValue(level)
  {
    match level
    case Log => LogCategory
    case Debug => DebugCategory
    case Info => InfoCategory
    case Warning => WarningCategory
    case Error => ErrorCategory
    case Fault => FaultCategory
  }

  /** What one `log(_:)` of a sink does. */
  function Emission(output: Output, info: LogInformation, env: Env): (r: seq<Event>)
    ensures output != FileLogger ==> |r| == 1
    ensures output == PrintLogger ==> r == [Printed(SeparatedLine(info, env))]
    ensures output == ConsolePrintLogger ==> r == [Printed(ConsoleLine(info, env))]
    ensures output.Custom? ==> r == [Received(output.id, info)]
    ensures output == FileLogger ==> r == [FileOpened, FileWritten(SeparatedLine(info, env)), FileClosed]
    ensures output == OsLogger && env.modernOsLog ==> r == [NativeLog(Route(info.level), SeparatedLine(info, env))]
    ensures output == OsLogger && !env.modernOsLog ==> r == [LegacyOsLog(SeparatedLine(info, env))]
  {
    match output
    case PrintLogger => [Printed(SeparatedLine(info, env))]
    case ConsolePrintLogger => [Printed(ConsoleLine(info, env))]
    case OsLogger =>
      if env.modernOsLog then [NativeLog(Route(info.level), SeparatedLine(info, env))]
      else [LegacyOsLog(SeparatedLine(info, env))]
    case FileLogger => [FileOpened, FileWritten(SeparatedLine(info, env)), FileClosed]
    case Custom(id) => [Received(id, info)]
  }

  /**
   * An info line is prefix, optional " msg", then " -- " and the method name when there is a
   * message, or a bare space and the method name without one.
   */
  lemma SeparatedInfoLine(info: LogInformation, env: Env)
    requires info.level == Info
    ensures info.message == "" ==> SeparatedLine(info, env) == info.prefix + " " + MethodName(info)
    ensures info.message != "" ==> SeparatedLine(info, env) == info.prefix + " " + info.message + " --" + " " + MethodName(info)
  {
  }

  /** The console template keeps " -- " for an empty message; the shared template drops its separator. */
  lemma ConsoleKeepsSeparator(info: LogInformation, env: Env)
    requires info.message == ""
    ensures info.level == Info ==> ConsoleLine(info, env) == info.prefix + " -- " + FileName(info) + ":" + IntText(info.line)
    ensures info.level == Info ==> SeparatedLine(info, env) == info.prefix + " " + MethodName(info)
  {
  }

  /** `PrintLogger.log(_:)` of Logger+print.swift: one print of the shared template. */
  method PrintLog(context: LogInformation, env: Env, trace: Effects.Trace<Event>)
    modifies trace
    ensures trace.events == old(trace.events) + [Printed(SeparatedLine(context, env))]
  {
    var separator := if context.message == "" then "" else " --";
    var message := if context.level == Info
      then context.prefix + AddSpacer(" ", context.message) + separator + " " + MethodName(context)
      else context.prefix + " [" + Timestamp(context, env) + "] [" + ThreadName(env.thread) + "]"
           + AddSpacer(" ", context.message) + separator + " " + MethodName(context)
           + " " + FileName(context) + ":" + IntText(context.line) + ")";
    trace.Append([Printed(message)]);
  }

  /** `PrintLogger.log(_:)` of Logger+Console.swift: one print of the console template. */
  method ConsoleLog(context: LogInformation, env: Env, trace: Effects.Trace<Event>)
    modifies trace
    ensures trace.events == old(trace.events) + [Printed(ConsoleLine(context, env))]
  {
    var message := if context.level == Info
      then context.prefix + AddSpacer(" ", context.message) + " -- " + FileName(context) + ":" + IntText(context.line)
      else context.prefix + " [" + Timestamp(context, env) + "] [" + ThreadName(env.thread) + "]"
           + AddSpacer(" ", context.message) + " -- " + MethodName(context) + " " + FileName(context) + ":" + IntText(context.line) + ")";
    trace.Append([Printed(message)]);
  }

  /** `OsLogger.log(_:)`: one native call on the level's entry point, or one `os_log` before iOS 14. */
  method OsLog(context: LogInformation, env: Env, trace: Effects.Trace<Event>)
    modifies trace
    ensures trace.events == old(trace.events) + Emission(OsLogger, context, env)
  {
    var message := SeparatedLine(context, env);
    if env.modernOsLog {
      match context.level {
        case Log => trace.Append([NativeLog(LogCategory, message)]);
        case Debug => trace.Append([NativeLog(DebugCategory, message)]);
        case Info => trace.Append([NativeLog(InfoCategory, message)]);
        case Warning => trace.Append([NativeLog(WarningCategory, message)]);
        case Error => trace.Append([NativeLog(ErrorCategory, message)]);
        case Fault => trace.Append([NativeLog(FaultCategory, message)]);
      }
    } else {
      trace.Append([LegacyOsLog(message)]);
    }
  }

  /** `FileLogger.log(_:)`: open, write the line, close, in that order. */
  method FileLog(context: LogInformation, env: Env, dependency: Effects.Trace<Event>)
    modifies dependency
    ensures dependency.events == old(dependency.events) + [FileOpened, FileWritten(SeparatedLine(context, env)), FileClosed]
  {
    var message := SeparatedLine(context, env);
    dependency.Append([FileOpened]);
    dependency.Append([FileWritten(message)]);
    dependency.Append([FileClosed]);
  }

  /** `output.log(_:)` for whichever sink the logger holds. */
  method Log(output: Output, context: LogInformation, env: Env, trace: Effects.Trace<Event>)
    modifies trace
    ensures trace.events == old(trace.events) + Emission(output, context, env)
  {
    match output {
      case PrintLogger => PrintLog(context, env, trace);
      case ConsolePrintLogger => ConsoleLog(context, env, trace);
      case OsLogger => OsLog(context, env, trace);
      case FileLogger => FileLog(context, env, trace);
      case Custom(id) => trace.Append([Received(id, context)]);
    }
  }
}
