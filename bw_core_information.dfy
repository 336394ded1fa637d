/**
 * Sources/BwLogger/Core/LogInformation.swift and the `Level` enum of Sources/BwLogger/Core/Logger.swift:
 * the record of the single-output generation. The date is captured when the record is made and
 * every timestamp formats that stored date.
 */
module BwCoreInformation {
  import opened Optional
  import opened Runtime

  datatype Level = Log | Debug | Info | Warning | Error | Fault

  /** The enum's raw values. */
  function RawValue(level: Level): (r: string)
    ensures r != ""
  {
    match level
    case Log => "log"
    case Debug => "debug"
    case Info => "info"
    case Warning => "warning"
    case Error => "error"
    case Fault => "fault"
  }

  /** A point in time, as `Date()` returns it. */
  datatype Instant = Instant(ticks: int)

  /**
   * What the world supplies when a record is written out: the current thread, `Date.string(dateFormat:)`
   * as a function of the date and the format, and whether `os.Logger` is available (`#available(iOS 14.0, *)`).
   */
  datatype Env = Env(thread: ThreadInfo, format: (Instant, string) -> string, modernOsLog: bool)

  /** The default argument of `timestamp(_:)`. */
  const DefaultTimestampFormat: string := "yyyy/MM/dd HH:mm:ss.SSS z"

  /** The record. The caller's `instance` is optional here. */
  datatype LogInformation = LogInformation(
    level: Level, prefix: string, message: string, instance: Option<Instance>,
    date: Instant, fn: string, file: string, line: int)

  /** `init(level:prefix:message:instance:function:file:line:)`; `now` is `Date()` at that moment. */
  function NewInformation(level: Level, prefix: string, message: Value, instance: Option<Instance>,
                          fn: string, file: string, line: int, now: Instant): (info: LogInformation)
    ensures info.level == level && info.prefix == prefix && info.instance == instance
    ensures info.fn == fn && info.file == file && info.line == line && info.date == now
    ensures message.Text? ==> info.message == message.text
    ensures message.Described? ==> info.message == message.description
  {
    LogInformation(level, prefix, Coerce(message), instance, now, fn, file, line)
  }

  /** `timestamp(_:)` with its default format. */
  function Timestamp(info: LogInformation, env: Env): string
  {
    env.format(info.date, DefaultTimestampFormat)
  }

  /** `fileName`: the last path component of the file. */
  function FileName(info: LogInformation): string
  {
    LastPathComponent(info.file)
  }

  /** `methodName`: the bare function without an instance, "<type name>:<function>" with one. */
  function MethodName(info: LogInformation): (r: string)
    ensures info.instance.None? ==> r == info.fn
    ensures info.instance.Some? ==> r == info.instance.value.typeName + ":" + info.fn
  {
    match info.instance
    case None => info.fn
    case Some(instance) => instance.typeName + ":" + info.fn
  }

  /** The timestamp of a record is the date captured when it was made, whenever it is formatted. */
  lemma TimestampIsCaptureTime(level: Level, prefix: string, message: Value, instance: Option<Instance>,
                               fn: string, file: string, line: int, now: Instant, env: Env)
    ensures Timestamp(NewInformation(level, prefix, message, instance, fn, file, line, now), env)
         == env.format(now, "yyyy/MM/dd HH:mm:ss.SSS z")
  {
  }

  /** The method name always ends with the function name. */
  lemma MethodNameEndsWithFunction(info: LogInformation)
    ensures |MethodName(info)| >= |info.fn|
    ensures MethodName(info)[|MethodName(info)| - |info.fn|..] == info.fn
  {
    if info.instance.Some? {
      var head := info.instance.value.typeName + ":";
      assert MethodName(info) == head + info.fn;
    }
  }
}
