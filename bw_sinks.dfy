/**
 * The concrete outputs of the multi-output generation: Sources/BwLogger/Output/ConsoleLogger.swift,
 * ExampleLogger.swift, OsLogger.swift and OSLogger.swift. Printing, `assertionFailure` and native
 * logging are events appended to a trace. Outputs have no state that changes, so each is a value.
 */
module BwSinks {
  import opened Runtime
  import opened BwInformation
  import opened BwOutput
  import BwCoreInformation
  import BwCoreSinks
  import Effects

  /**
   * The native logger a wrapper is made with: `os.Logger()` when both subsystem and category are
   * empty, `os.Logger(subsystem:category:)` otherwise.
   */
  datatype Handle = DefaultHandle | SubsystemHandle(subsystem: string, category: string)

  datatype Output =
    | ConsoleLogger
    | ExampleLogger
    | OsLogger(subsystem: string, category: string)
    | OSLogger(subsystem: string, category: string)
    | Custom(id: nat)   // any other `LogOutput` a caller supplies

  /** The argument-less initialisers. */
  const DefaultOsLogger: Output := OsLogger("beowulf-tech", "Logger")
  const DefaultOSLogger: Output := OSLogger("com.beowulf-tech", "OSLogger")

  datatype Event =
    | Printed(text: string)
    | AssertionFailure(text: string)
    | NativeLog(handle: Handle, category: OsLogCategory, text: string)
    | LegacyOsLog(text: string)
    | Received(id: nat, info: LogInformation)   // a caller-supplied output's log(_:)

  /** The console's own level table. */
  function ConsolePrefix(level: Level): string
  {
    match level
    case Log => ""
    case Debug => "#DEBUG"
    case Info => "#INFOM"
    case Warning => "#WARNG"
    case Error => "#ERROR"
    case Fault => "#🔥"
  }

  /** The example logger's prefix when the record has none: "🔹 " and the level's raw name. */
  function ExamplePrefix(level: Level): (r: string)
    ensures |r| > 2 && r[..2] == "🔹 " && r[2..] == BwCoreInformation.RawValue(level)
  {
    "🔹 " + BwCoreInformation.RawValue(level)
  }

  /** The console line: its own table, timestamp on non-info lines. */
  function ConsoleMessage(info: LogInformation, env: Env): string
  {
    TimedMessage(PrefixWith(info, ConsolePrefix), info, env)
  }

  /** The example line: "🔹 level" prefix, no timestamp. */
  function ExampleMessage(info: LogInformation, env: Env): string
  {
    UntimedMessage(PrefixWith(info, ExamplePrefix), info, env)
  }

  /**
   * The native line, for both native outputs: the record prefix, else `prefix(for:)`, and no
   * timestamp (the native log stamps entries itself).
   */
  function NativeMessage(info: LogInformation, env: Env): string
  {
    UntimedMessage(PrefixWith(info, LevelPrefix), info, env)
  }

  /** The wrapper choice of both native outputs. */
  function HandleFor(subsystem: string, category: string): (h: Handle)
    ensures h == DefaultHandle <==> subsystem == "" && category == ""
    ensures h.SubsystemHandle? ==> h.subsystem == subsystem && h.category == category
  {
    if subsystem == "" && category == "" then DefaultHandle else SubsystemHandle(subsystem, category)
  }

  /** A console or example line: a fault raises an assertion failure carrying it, any other level prints it. */
  function Alert(level: Level, message: string): (e: Event)
    ensures level == Level.Fault <==> e == AssertionFailure(message)
    ensures level != Level.Fault <==> e == Printed(message)
  {
    if level == Level.Fault then AssertionFailure(message) else Printed(message)
  }

  /** A native line: the same-named `os.Logger` method when available, `os_log` otherwise. */
  function Native(subsystem: string, category: string, info: LogInformation, env: Env): (e: Event)
    ensures env.modernOsLog ==> e == NativeLog(HandleFor(subsystem, category), BwCoreSinks.Route(info.level), NativeMessage(info, env))
    ensures !env.modernOsLog ==> e == LegacyOsLog(NativeMessage(info, env))
  {
    if env.modernOsLog then NativeLog(HandleFor(subsystem, category), BwCoreSinks.Route(info.level), NativeMessage(info, env))
    else LegacyOsLog(NativeMessage(info, env))
  }

  /** What one output does with one record: exactly one event. */
  function Emission(output: Output, info: LogInformation, env: Env): (e: Event)
    ensures output == ConsoleLogger ==> e == Alert(info.level, ConsoleMessage(info, env))
    ensures output == ExampleLogger ==> e == Alert(info.level, ExampleMessage(info, env))
    ensures output.OsLogger? || output.OSLogger? ==> e == Native(output.subsystem, output.category, info, env)
    ensures output.Custom? ==> e == Received(output.id, info)
  {
    match output
    case ConsoleLogger => Alert(info.level, ConsoleMessage(info, env))
    case ExampleLogger => Alert(info.level, ExampleMessage(info, env))
    case OsLogger(subsystem, category) => Native(subsystem, category, info, env)
    case OSLogger(subsystem, category) => Native(subsystem, category, info, env)
    case Custom(id) => Received(id, info)
  }

  /** `ConsoleLogger.log(_:)`. */
  method ConsoleLog(information: LogInformation, env: Env, trace: Effects.Trace<Event>)
    modifies trace
    ensures trace.events == old(trace.events) + [Emission(ConsoleLogger, information, env)]
  {
    var message := ConsoleMessage(information, env);
    if information.level == Level.Fault {
      trace.Append([AssertionFailure(message)]);
    } else {
      trace.Append([Printed(message)]);
    }
  }

  /** `ExampleLogger.log(_:)`. */
  method ExampleLog(information: LogInformation, env: Env, trace: Effects.Trace<Event>)
    modifies trace
    ensures trace.events == old(trace.events) + [Emission(ExampleLogger, information, env)]
  {
    var message := ExampleMessage(information, env);
    if information.level == Level.Fault {
      trace.Append([AssertionFailure(message)]);
    } else {
      trace.Append([Printed(message)]);
    }
  }

  /** `OsLogger.log(_:)` and `OSLogger.log(_:)`: the message is generated once, then routed by level. */
  method NativeLogCall(subsystem: string, category: string, information: LogInformation, env: Env,
                       trace: Effects.Trace<Event>)
    modifies trace
    ensures trace.events == old(trace.events) + [Native(subsystem, category, information, env)]
  {
    var message := NativeMessage(information, env);
    if env.modernOsLog {
      var handle := HandleFor(subsystem, category);
      var c: OsLogCategory;
      match information.level {
        case Log => c := LogCategory;
        case Debug => c := DebugCategory;
        case Info => c := InfoCategory;
        case Warning => c := WarningCategory;
        case Error => c := ErrorCategory;
        case Fault => c := FaultCategory;
      }
      trace.Append([NativeLog(handle, c, message)]);
    } else {
      trace.Append([LegacyOsLog(message)]);
    }
  }

  /** `LogOutput.log(_:)`, dispatched on the concrete output. */
  method Log(output: Output, information: LogInformation, env: Env, trace: Effects.Trace<Event>)
    modifies trace
    ensures trace.events == old(trace.events) + [Emission(output, information, env)]
  {
    match output {
      case ConsoleLogger => ConsoleLog(information, env, trace);
      case ExampleLogger => ExampleLog(information, env, trace);
      case OsLogger(subsystem, category) => NativeLogCall(subsystem, category, information, env, trace);
      case OSLogger(subsystem, category) => NativeLogCall(subsystem, category, information, env, trace);
      case Custom(id) => trace.Append([Received(id, information)]);
    }
  }

  /** Only the console logger's non-info lines carry a timestamp; the other outputs' lines never do. */
  lemma ConsoleIsTimedExampleIsNot(info: LogInformation, env: Env)
    requires info.level != Level.Info && info.prefix.Some?
    ensures ConsoleMessage(info, env)
         == info.prefix.value + " [" + DefaultTimestamp(info, env) + "]" + ExampleMessage(info, env)[|info.prefix.value|..]
    ensures ExampleMessage(info, env) == NativeMessage(info, env) == UntimedLine(info.prefix.value, info, env)
  {
    TimedIsUntimedWithTimestamp(info.prefix.value, info, env);
  }

  /** Both native outputs write the same line for the same record and route it to the same category. */
  lemma NativeOutputsAgree(subsystem: string, category: string, info: LogInformation, env: Env)
    ensures Emission(OsLogger(subsystem, category), info, env) == Emission(OSLogger(subsystem, category), info, env)
  {
  }

  /** Without a record prefix, the per-output tables are pairwise different on every level but `.log`. */
  lemma OutputTablesDiffer(level: Level)
    requires level != Level.Log
    ensures ConsolePrefix(level) != HashPrefix(level)
    ensures ConsolePrefix(level) != LevelPrefix(level)
    ensures ExamplePrefix(level) != ConsolePrefix(level)
  {
    var e := ExamplePrefix(level);
    assert e[0] == '🔹';
  }

  /** The argument-less native outputs have a subsystem, so they never use the default handle. */
  lemma DefaultNativeOutputsUseSubsystem()
    ensures HandleFor(DefaultOsLogger.subsystem, DefaultOsLogger.category) == SubsystemHandle("beowulf-tech", "Logger")
    ensures HandleFor(DefaultOSLogger.subsystem, DefaultOSLogger.category) == SubsystemHandle("com.beowulf-tech", "OSLogger")
  {
  }
}
