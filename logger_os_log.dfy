/** Sources/Logger/Logger+os_log.swift: `OsLogger`, its own template per level and one `os_log` call. */
module OsLogSink {
  import opened Runtime
  import opened Text
  import opened LoggerContext
  import PrintSink
  import Effects

  /** The per-level `os_log` text. It never carries a timestamp. */
  function OsLine(c: LogContext, env: Env): string
  {
    match c.level
    case Trace => "➡️" + " " + MethodName(c, NormalDescription) + AddSpacer(" -- ", c.message)
    case Debug => "🟠" + " [" + ThreadName(env.thread) + "]" + c.message + " -- " + LineInfo(c)
    case Info => "🔵" + AddSpacer(" ", c.message) + " -- " + LineInfo(c)
    case Notice => "🟢" + AddSpacer(" ", c.message) + " -- " + LineInfo(c)
    case Warning => "⚠️" + " [" + ThreadName(env.thread) + "]" + AddSpacer(" ", c.message) + " -- " + LineInfo(c)
    case Error => "🚫" + " [" + ThreadName(env.thread) + "]" + AddSpacer(" ", c.message) + " -- " + LineInfo(c)
    case Fatal => "🔥" + " [" + ThreadName(env.thread) + "]" + AddSpacer(" ", c.message) + " -- " + LineInfo(c)
    case Deinit => "❎ DEINIT" + AddSpacer(" ", c.message) + " -- " + LineInfo(c)
  }

  /** The part of a non-trace line before the message: the level's mark, and the thread for debug, warning, error and fatal. */
  function OsHead(level: Level, env: Env): string
  {
    match level
    case Trace => ""
    case Debug => "🟠" + " [" + ThreadName(env.thread) + "]"
    case Info => "🔵"
    case Notice => "🟢"
    case Warning => "⚠️" + " [" + ThreadName(env.thread) + "]"
    case Error => "🚫" + " [" + ThreadName(env.thread) + "]"
    case Fatal => "🔥" + " [" + ThreadName(env.thread) + "]"
    case Deinit => "❎ DEINIT"
  }

  /**
   * Every non-trace line is the head, the message, " -- " and the line info; only the debug line
   * glues the message to the head without a spacer.
   */
  lemma OsLineShape(c: LogContext, env: Env)
    requires c.level != Trace
    ensures OsLine(c, env) == OsHead(c.level, env)
                              + (if c.level == Debug then c.message else AddSpacer(" ", c.message))
                              + " -- " + LineInfo(c)
  {
  }

  /** The trace line is the print sink's trace line with a space after the arrow. */
  lemma TraceLineMatchesPrint(c: LogContext, env: Env)
    requires c.level == Trace
    ensures OsLine(c, env) == PrintSink.PreFix(Trace) + " " + BuildMessage(c, env)
  {
  }

  /** No `os_log` line depends on the clock. */
  lemma OsLineIgnoresClock(c: LogContext, env: Env, render: string -> string)
    ensures OsLine(c, env) == OsLine(c, env.(render := render))
  {
  }

  /** Trace, info, notice and deinit lines carry no thread name. */
  lemma OsLineThreadOnlyInDiagnostics(c: LogContext, env: Env, thread: ThreadInfo)
    requires c.level in {Trace, Info, Notice, Deinit}
    ensures OsLine(c, env) == OsLine(c, env.(thread := thread))
  {
  }

  /** `OsLogger.log(_:)`: builds the level's text and emits it once. */
  method Log(context: LogContext, env: Env, trace: Effects.Trace<Event>)
    modifies trace
    ensures trace.events == old(trace.events) + [OsLogged(OsLine(context, env))]
  {
    var formattedMessage := "";
    match context.level {
      case Trace =>
        formattedMessage := "➡️" + " " + MethodName(context, NormalDescription) + AddSpacer(" -- ", context.message);
      case Debug =>
        formattedMessage := "🟠" + " [" + ThreadName(env.thread) + "]" + context.message + " -- " + LineInfo(context);
      case Info =>
        formattedMessage := "🔵" + AddSpacer(" ", context.message) + " -- " + LineInfo(context);
      case Notice =>
        formattedMessage := "🟢" + AddSpacer(" ", context.message) + " -- " + LineInfo(context);
      case Warning =>
        formattedMessage := "⚠️" + " [" + ThreadName(env.thread) + "]" + AddSpacer(" ", context.message) + " -- " + LineInfo(context);
      case Error =>
        formattedMessage := "🚫" + " [" + ThreadName(env.thread) + "]" + AddSpacer(" ", context.message) + " -- " + LineInfo(context);
      case Fatal =>
        formattedMessage := "🔥" + " [" + ThreadName(env.thread) + "]" + AddSpacer(" ", context.message) + " -- " + LineInfo(context);
      case Deinit =>
        formattedMessage := "❎ DEINIT" + AddSpacer(" ", context.message) + " -- " + LineInfo(context);
    }
    trace.Append([OsLogged(formattedMessage)]);
  }
}
