/**
 * Sources/Logger/LogContext.swift and the `Level` enum of Sources/Logger/Logger.swift: the record
 * the second design of this generation hands to its dependency, and the per-level message
 * templates built from it.
 */
module LoggerContext {
  import opened Runtime
  import opened Text

  datatype Level = Trace | Debug | Info | Notice | Warning | Error | Fatal | Deinit

  datatype TimeStampType = NoTimestamp | Detail | Simple | Normal | Full

  /** `TimeStampType.style`: the date format of each timestamp kind. */
  function Style(t: TimeStampType): (r: string)
    ensures r == "" <==> t == NoTimestamp
  {
    match t
    case NoTimestamp => ""
    case Detail => "HH:mm:ss.SSS"
    case Simple => "MM/dd HH:mm:ss.SSS"
    case Normal => "yyyy/MM/dd HH:mm:ss.SSS"
    case Full => "yyyy/MM/dd HH:mm:ss.SSS z"
  }

  datatype DescriptionType = NoDescription | NormalDescription | DetailDescription

  /**
   * What the world supplies when a line is built: `Date()` rendered with a date format, and the
   * current thread.
   */
  datatype Env = Env(render: string -> string, thread: ThreadInfo)

  /** The record; `message` is already a string. */
  datatype LogContext = LogContext(level: Level, message: string, instance: Instance, fn: string, file: string, line: int)

  /** `LogContext.init`: a `String` message is kept, any other value is stored as its description. */
  function NewContext(level: Level, message: Value, instance: Instance, fn: string, file: string, line: int): (c: LogContext)
    ensures c.level == level && c.instance == instance && c.fn == fn && c.file == file && c.line == line
    ensures message.Text? ==> c.message == message.text
    ensures message.Described? ==> c.message == message.description
  {
    LogContext(level, Coerce(message), instance, fn, file, line)
  }

  /** `timestamp(_:)`: the current date in the given kind's format; `buildMessage` uses `.full`. */
  function Timestamp(env: Env, t: TimeStampType): string
  {
    env.render(Style(t))
  }

  /**
   * `methodName(_:)`: "" for `.none`; for an instance that describes as "" the file's base name
   * (up to the first '.') and the function; otherwise the type name (`.normal`) or the description
   * (`.detail`) and the function.
   */
  function MethodName(c: LogContext, d: DescriptionType): (r: string)
    ensures d == NoDescription ==> r == ""
    ensures d != NoDescription && c.instance.description == ""
            ==> r == UpToFirstDot(LastPathComponent(c.file)) + ":" + c.fn
    ensures d == NormalDescription && c.instance.description != "" ==> r == c.instance.typeName + ":" + c.fn
    ensures d == DetailDescription && c.instance.description != "" ==> r == c.instance.description + ":" + c.fn
  {
    if d == NoDescription then ""
    else
      var fileName := LastPathComponent(c.file);
      var className := c.instance.description;
      if className == "" then UpToFirstDot(fileName) + ":" + c.fn
      else if d == NormalDescription then c.instance.typeName + ":" + c.fn
      else className + ":" + c.fn
  }

  /** `lineInfo()`: the file's last path component, a colon and the line. */
  function LineInfo(c: LogContext): string
  {
    LastPathComponent(c.file) + ":" + IntText(c.line)
  }

  /** The "[ts]" head of every template but the trace one. */
  function StampHead(env: Env): string
  {
    "[" + Timestamp(env, Full) + "]"
  }

  /** The " [thread]" segment of the diagnostic templates. */
  function ThreadPart(env: Env): string
  {
    " [" + ThreadName(env.thread) + "]"
  }

  /** `buildMessage()`, level by level; the method name is always the `.normal` one. */
  function BuildMessage(c: LogContext, env: Env): string
  {
    match c.level
    case Trace => MethodName(c, NormalDescription) + AddSpacer(" -- ", c.message)
    case Info => StampHead(env) + AddSpacer(" ", c.message) + " -- " + LineInfo(c)
    case Notice => StampHead(env) + AddSpacer(" ", c.message) + " -- " + (MethodName(c, NormalDescription) + " " + LineInfo(c))
    case Deinit => StampHead(env) + " " + MethodName(c, NormalDescription)
    case _ => StampHead(env) + ThreadPart(env) + AddSpacer(" ", c.message) + " -- " + (MethodName(c, NormalDescription) + " " + LineInfo(c))
  }

  /** The part of a non-trace, non-deinit line before the message. */
  function Head(c: LogContext, env: Env): string
  {
    if c.level in {Debug, Warning, Error, Fatal} then StampHead(env) + ThreadPart(env) else StampHead(env)
  }

  /** The part of a non-trace, non-deinit line after " -- ". */
  function Trailer(c: LogContext): string
  {
    if c.level == Info then LineInfo(c) else MethodName(c, NormalDescription) + " " + LineInfo(c)
  }

  /**
   * Every template but trace and deinit is head, optional " msg", " -- ", trailer; head and trailer
   * do not depend on the message, so " -- " is there even for an empty message.
   */
  lemma MessageBetweenHeadAndTrailer(c: LogContext, env: Env)
    requires c.level != Trace && c.level != Deinit
    ensures BuildMessage(c, env) == Head(c, env) + AddSpacer(" ", c.message) + " -- " + Trailer(c)
    ensures Head(c, env) == Head(c.(message := ""), env) && Trailer(c) == Trailer(c.(message := ""))
  {
  }

  /** The trace line is the method name, followed by " -- " and the message only when there is one. */
  lemma TraceLine(c: LogContext, env: Env)
    requires c.level == Trace
    ensures c.message == "" ==> BuildMessage(c, env) == MethodName(c, NormalDescription)
    ensures c.message != "" ==> BuildMessage(c, env) == MethodName(c, NormalDescription) + " -- " + c.message
  {
  }

  /** The deinit line is "[ts] " and the method name, whatever the message. */
  lemma DeinitIgnoresMessage(c: LogContext, env: Env, other: string)
    requires c.level == Deinit
    ensures BuildMessage(c, env) == BuildMessage(c.(message := other), env)
    ensures BuildMessage(c, env) == "[" + env.render("yyyy/MM/dd HH:mm:ss.SSS z") + "] " + MethodName(c, NormalDescription)
  {
    assert Style(Full) == "yyyy/MM/dd HH:mm:ss.SSS z";
  }

  /** Info and notice lines carry no thread name; trace lines depend on neither clock nor thread. */
  lemma ThreadOnlyInDiagnosticLines(c: LogContext, env: Env, thread: ThreadInfo)
    requires c.level in {Trace, Info, Notice, Deinit}
    ensures BuildMessage(c, env) == BuildMessage(c, env.(thread := thread))
  {
  }

  /** A file name followed by an extension loses the extension in the method name of an instance that describes as "". */
  lemma FileBaseNameLabel(c: LogContext, dir: string, base: string, ext: string)
    requires c.instance.description == ""
    requires '/' !in base && '.' !in base && '/' !in ext
    requires c.file == dir + "/" + base + "." + ext
    ensures MethodName(c, NormalDescription) == base + ":" + c.fn
    ensures MethodName(c, DetailDescription) == base + ":" + c.fn
  {
    assert '/' !in base + "." + ext;
    assert dir + "/" + base + "." + ext == dir + "/" + (base + "." + ext);
    DirectoriesAreDropped(dir, base + "." + ext);
    StopsAtFirstDot(base, ext);
  }

  /** A bare file name with an extension also loses the extension. */
  lemma PlainFileBaseNameLabel(c: LogContext, base: string, ext: string)
    requires c.instance.description == ""
    requires '/' !in base && '.' !in base && '/' !in ext
    requires c.file == base + "." + ext
    ensures MethodName(c, NormalDescription) == base + ":" + c.fn
  {
    assert '/' !in base + "." + ext;
    PlainFileNameIsKept(c.file);
    StopsAtFirstDot(base, ext);
  }

  /** "Widget.swift" and "render" give "Widget:render". */
  lemma WidgetRender(c: LogContext)
    requires c.instance.description == "" && c.file == "Widget.swift" && c.fn == "render"
    ensures MethodName(c, NormalDescription) == "Widget:render"
  {
    assert c.file == "Widget" + "." + "swift";
    PlainFileBaseNameLabel(c, "Widget", "swift");
  }

  /** `lineInfo()` keeps only the file's own name. */
  lemma LineInfoDropsDirectories(c: LogContext, dir: string, name: string)
    requires '/' !in name && c.file == dir + "/" + name
    ensures LineInfo(c) == name + ":" + IntText(c.line)
  {
    DirectoriesAreDropped(dir, name);
  }

  /** The output sinks of this design record what they emit. */
  datatype Event =
    | Printed(text: string)     // print(_:)
    | OsLogged(text: string)    // one `os_log` call
    | Received(id: nat, context: LogContext)  // a caller-supplied dependency's `log(_:)`
}
