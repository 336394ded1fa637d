/**
 * Sources/Logger/LoggerCore.swift: the policy-driven logger. A `LoggerDependency` decides per level
 * the prefix, whether anything is logged, the timestamp granularity and which of the thread,
 * call-site and file:line segments appear; `formatter` assembles the line in a fixed order and
 * `log` filters, formats, hands the line to the dependency and asserts on `.fatal`.
 */
module LoggerCore {
  import opened Optional
  import opened Runtime
  import opened Text
  import LevelFilter
  import Effects

  datatype Level = Enter | Exit | Info | Debug | Warn | Error | Fatal

  datatype TimeStampType = NoTimestamp | Sec | Msec

  datatype DescriptionType = NoDescription | Normal | Detail

  /**
   * The `LoggerDependency` protocol, one field per requirement that shapes the line.
   * Its `log(_:message:level:)` requirement is recorded as a `DependencyLog` event.
   */
  datatype Dependency = Dependency(
    preFix: Level -> string,
    isEnabled: Level -> bool,
    dateType: Level -> TimeStampType,
    threadName: Level -> bool,
    classAndMethodName: Level -> DescriptionType,
    fileAndLineNumber: Level -> bool,
    sepalator: string,
    sepalator2: string)

  /** The default `preFix` table. */
  function DefaultPreFix(level: Level): (r: string)
  {
    match level
    case Enter => "➡️"
    case Exit => "⬅️"
    case Info => "🔹"
    case Debug => "🔸"
    case Warn => "⚠️"
    case Error => "❌"
    case Fatal => "🔥"
  }

  /** The default `getDateType`: no timestamp on enter/exit, milliseconds otherwise. */
  function DefaultDateType(level: Level): TimeStampType
  {
    match level
    case Enter => NoTimestamp
    case Exit => NoTimestamp
    case Info => Msec
    case _ => Msec
  }

  /** The default `isEnabledThreadName`: every level but info. */
  function DefaultThreadName(level: Level): bool
  {
    match level
    case Info => false
    case _ => true
  }

  /** The default `isEnabledClassAndMethodName`. */
  function DefaultClassAndMethodName(level: Level): DescriptionType
  {
    match level
    case Enter | Exit => Normal
    case Info => NoDescription
    case _ => Detail
  }

  /** The default `isEnabledFileAndLineNumber`: only the diagnostic levels. */
  function DefaultFileAndLineNumber(level: Level): bool
  {
    match level
    case Enter => false
    case Exit => false
    case Info => false
    case _ => true
  }

  /**
   * `DefaultLoggerDependencies()`: the protocol extension's defaults. `debugBuild` stands for the
   * `#if DEBUG` switch of the default `isEnabled`.
   */
  function DefaultDependency(debugBuild: bool): (d: Dependency)
    ensures forall l :: d.isEnabled(l) == debugBuild
    ensures d.sepalator == " --" && d.sepalator2 == " --"
  {
    Dependency(DefaultPreFix, (l: Level) => debugBuild, DefaultDateType, DefaultThreadName,
               DefaultClassAndMethodName, DefaultFileAndLineNumber, " --", " --")
  }

  /** `Date()` rendered as "yyyy-MM-dd HH:mm:ss" and as "yyyy-MM-dd HH:mm:ss.SSS" at the moment of the call. */
  datatype Clock = Clock(seconds: string, milliseconds: string)

  datatype Env = Env(clock: Clock, thread: ThreadInfo)

  datatype Event =
    | DependencyLog(formedMessage: string, message: string, level: Level)  // dep.log(formedMessage, message:, level:)
    | AssertionFailure(text: string)                                        // assert(false, formedMessage)
    | Printed(text: string)                                                 // print(_:)

  function DateSegment(t: TimeStampType, clock: Clock): string
  {
    match t
    case NoTimestamp => ""
    case Sec => " [" + clock.seconds + "]"
    case Msec => " [" + clock.milliseconds + "]"
  }

  /**
   * The call-site label: "<file name>:<function>" when the instance describes as "", otherwise the
   * instance's type name (`.normal`) or its description (`.detail`) before ":<function>".
   */
  function CallSite(nameType: DescriptionType, instance: Instance, fn: string, fileName: string): string
  {
    if instance.description == "" then fileName + ":" + fn
    else match nameType
      case Normal => instance.typeName + ":" + fn
      case Detail => instance.description + ":" + fn
      case NoDescription => ""
  }

  function ThreadSegment(enabled: bool, thread: ThreadInfo): string
  {
    if enabled then " [" + ThreadName(thread) + "]" else ""
  }

  /** The call-site segment; the separator in front of it is the dependency's `sepalator()` only when there is a message. */
  function NameSegment(dep: Dependency, message: string, level: Level, instance: Instance, fn: string, fileName: string): string
  {
    var sep := if message != "" then dep.sepalator else "";
    if dep.classAndMethodName(level) != NoDescription
    then sep + " " + CallSite(dep.classAndMethodName(level), instance, fn, fileName) else ""
  }

  function PostSegment(dep: Dependency, postMessage: string): string
  {
    if postMessage != "" then dep.sepalator2 + " " + postMessage else ""
  }

  function FileLineSegment(enabled: bool, fileName: string, line: int): string
  {
    if enabled then " " + fileName + ":" + IntText(line) else ""
  }

  /**
   * The formatted line, segment by segment in the fixed order: indentation, prefix, timestamp,
   * thread, message, call-site label, post-message, file:line.
   */
  function Format(dep: Dependency, message: string, postMessage: string, shifter: int, level: Level,
                  instance: Instance, fn: string, file: string, line: int, env: Env): string
  {
    var fileName := LastPathComponent(file);
    Spaces(shifter) + dep.preFix(level)
    + DateSegment(dep.dateType(level), env.clock)
    + ThreadSegment(dep.threadName(level), env.thread)
    + AddSpacer(" ", message)
    + NameSegment(dep, message, level, instance, fn, fileName)
    + PostSegment(dep, postMessage)
    + FileLineSegment(dep.fileAndLineNumber(level), fileName, line)
  }

  /**
   * What one `log` call does: nothing when the dependency or the level list rejects the level;
   * otherwise one `dep.log` call with the formatted line and the raw message, followed on
   * `.fatal` by an assertion failure carrying the same line.
   */
  function LogEvents(dep: Dependency, levels: Option<seq<Level>>, message: string, postMessage: string,
                     shifter: int, level: Level, instance: Instance, fn: string, file: string,
                     line: int, env: Env): (r: seq<Event>)
    ensures r == [] <==> !(dep.isEnabled(level) && LevelFilter.ContainsOrNil(levels, level))
    ensures r != [] ==> r[0] == DependencyLog(Format(dep, message, postMessage, shifter, level, instance, fn, file, line, env), message, level)
    ensures r != [] ==> |r| == if level == Fatal then 2 else 1
    ensures |r| == 2 ==> r[1] == AssertionFailure(r[0].formedMessage)
  {
    if !dep.isEnabled(level) then []
    else if !LevelFilter.ContainsOrNil(levels, level) then []
    else
      var formed := Format(dep, message, postMessage, shifter, level, instance, fn, file, line, env);
      [DependencyLog(formed, message, level)] + (if level == Fatal then [AssertionFailure(formed)] else [])
  }

  class LoggerCore {
    var dep: Dependency
    var levels: Option<seq<Level>>

    /** `LoggerCore(levels:)` with the default dependency. */
    constructor (levels: Option<seq<Level>>, debugBuild: bool)
      ensures this.levels == levels && dep == DefaultDependency(debugBuild)
    {
      this.levels := levels;
      dep := DefaultDependency(debugBuild);
    }

    /** `formatter`: builds the line by successive appends to `result`. */
    method Formatter(message: string, postMessage: string, shifter: int, level: Level, instance: Instance,
                     fn: string, file: string, line: int, env: Env) returns (result: string)
      ensures result == Format(dep, message, postMessage, shifter, level, instance, fn, file, line, env)
    {
      var shifterString := "";
      if shifter > 0 {
        shifterString := Spaces(shifter);
      }
      result := shifterString + dep.preFix(level);
      assert result == Spaces(shifter) + dep.preFix(level);

      var date := "";
      match dep.dateType(level) {
        case NoTimestamp =>
        case Sec => date := " [" + env.clock.seconds + "]";
        case Msec => date := " [" + env.clock.milliseconds + "]";
      }
      assert date == DateSegment(dep.dateType(level), env.clock);
      result := result + date;

      var thread := "";
      if dep.threadName(level) {
        var threadName := ThreadName(env.thread);
        thread := " [" + threadName + "]";
      }
      result := result + thread;
      assert thread == ThreadSegment(dep.threadName(level), env.thread);

      var sepalator := "";
      var fileName := LastPathComponent(file);

      var text := "";
      if message != "" {
        text := " " + message;
        sepalator := dep.sepalator;
      }
      result := result + text;
      assert text == AddSpacer(" ", message);

      var name := "";
      var nameType := dep.classAndMethodName(level);
      if nameType != NoDescription {
        var className := instance.description;
        var callSite: string;
        if className == "" {
          callSite := fileName + ":" + fn;
        } else if nameType == Normal {
          callSite := instance.typeName + ":" + fn;
        } else {
          callSite := className + ":" + fn;
        }
        name := sepalator + " " + callSite;
      }
      result := result + name;
      assert name == NameSegment(dep, message, level, instance, fn, fileName);

      var post := "";
      if postMessage != "" {
        post := dep.sepalator2 + " " + postMessage;
      }
      result := result + post;
      assert post == PostSegment(dep, postMessage);

      var fileLine := "";
      if dep.fileAndLineNumber(level) {
        fileLine := " " + fileName + ":" + IntText(line);
      }
      result := result + fileLine;
      assert fileLine == FileLineSegment(dep.fileAndLineNumber(level), fileName, line);
      assert result == Spaces(shifter) + dep.preFix(level) + date + thread + text + name + post + fileLine;
    }

    /** `log(_:postMessage:shifter:level:instance:function:file:line:)`; the semaphore is left out. */
    method Log(message: string, postMessage: string, shifter: int, level: Level, instance: Instance,
               fn: string, file: string, line: int, env: Env, trace: Effects.Trace<Event>)
      modifies trace
      ensures trace.events == old(trace.events) + LogEvents(dep, levels, message, postMessage, shifter, level, instance, fn, file, line, env)
    {
      if !dep.isEnabled(level) {
        return;
      }
      if !LevelFilter.ContainsOrNil(levels, level) {
        return;
      }

      var formedMessage := Formatter(message, postMessage, shifter, level, instance, fn, file, line, env);
      trace.Append([DependencyLog(formedMessage, message, level)]);

      if level == Level.Fatal {
        trace.Append([AssertionFailure(formedMessage)]);
      }
    }

    method Debug(message: string, instance: Instance, fn: string, file: string, line: int, env: Env, trace: Effects.Trace<Event>)
      modifies trace
      ensures trace.events == old(trace.events) + LogEvents(dep, levels, message, "", 0, Level.Debug, instance, fn, file, line, env)
    {
      Log(message, "", 0, Level.Debug, instance, fn, file, line, env, trace);
    }

    method Info(message: string, instance: Instance, fn: string, file: string, line: int, env: Env, trace: Effects.Trace<Event>)
      modifies trace
      ensures trace.events == old(trace.events) + LogEvents(dep, levels, message, "", 0, Level.Info, instance, fn, file, line, env)
    {
      Log(message, "", 0, Level.Info, instance, fn, file, line, env, trace);
    }

    method Warn(message: string, instance: Instance, fn: string, file: string, line: int, env: Env, trace: Effects.Trace<Event>)
      modifies trace
      ensures trace.events == old(trace.events) + LogEvents(dep, levels, message, "", 0, Level.Warn, instance, fn, file, line, env)
    {
      Log(message, "", 0, Level.Warn, instance, fn, file, line, env, trace);
    }

    method Error(message: string, instance: Instance, fn: string, file: string, line: int, env: Env, trace: Effects.Trace<Event>)
      modifies trace
      ensures trace.events == old(trace.events) + LogEvents(dep, levels, message, "", 0, Level.Error, instance, fn, file, line, env)
    {
      Log(message, "", 0, Level.Error, instance, fn, file, line, env, trace);
    }

    method Fatal(message: string, instance: Instance, fn: string, file: string, line: int, env: Env, trace: Effects.Trace<Event>)
      modifies trace
      ensures trace.events == old(trace.events) + LogEvents(dep, levels, message, "", 0, Level.Fatal, instance, fn, file, line, env)
    {
      Log(message, "", 0, Level.Fatal, instance, fn, file, line, env, trace);
    }

    /** `entered`: the user's text goes to the post-message; the message itself is empty. */
    method Entered(instance: Instance, message: string, shifter: int, fn: string, file: string, line: int, env: Env, trace: Effects.Trace<Event>)
      modifies trace
      ensures trace.events == old(trace.events) + LogEvents(dep, levels, "", message, shifter, Level.Enter, instance, fn, file, line, env)
    {
      Log("", message, shifter, Level.Enter, instance, fn, file, line, env, trace);
    }

    /** `exit`: as `entered`, at the exit level. */
    method Exit(instance: Instance, message: string, shifter: int, fn: string, file: string, line: int, env: Env, trace: Effects.Trace<Event>)
      modifies trace
      ensures trace.events == old(trace.events) + LogEvents(dep, levels, "", message, shifter, Level.Exit, instance, fn, file, line, env)
    {
      Log("", message, shifter, Level.Exit, instance, fn, file, line, env, trace);
    }

    /** `dispose`: prints "❎ " and the object's type name, unfiltered. */
    method Dispose(obj: Instance, trace: Effects.Trace<Event>)
      modifies trace
      ensures trace.events == old(trace.events) + [Printed("❎ " + obj.typeName)]
    {
      trace.Append([Printed("❎ " + obj.typeName)]);
    }
  }

  /** The message segment and its separator appear only with a non-empty message: with an empty
      message the dependency's `sepalator()` is never used. */
  lemma EmptyMessageUsesNoSeparator(dep: Dependency, other: string, postMessage: string, shifter: int, level: Level,
                                    instance: Instance, fn: string, file: string, line: int, env: Env)
    ensures Format(dep, "", postMessage, shifter, level, instance, fn, file, line, env)
         == Format(dep.(sepalator := other), "", postMessage, shifter, level, instance, fn, file, line, env)
  {
  }

  /** With an empty message the call-site segment starts with a bare space: no separator precedes the label. */
  lemma EmptyMessageNameSegment(dep: Dependency, level: Level, instance: Instance, fn: string, fileName: string)
    requires dep.classAndMethodName(level) != NoDescription
    ensures NameSegment(dep, "", level, instance, fn, fileName)
         == " " + CallSite(dep.classAndMethodName(level), instance, fn, fileName)
  {
    assert "" + " " == " ";
  }

  /** An instance describing as "" is labelled "<last path component>:<function>" under both `.normal` and `.detail`. */
  lemma EmptyInstanceUsesFileName(instance: Instance, fn: string, file: string)
    requires instance.description == ""
    ensures CallSite(Normal, instance, fn, LastPathComponent(file)) == LastPathComponent(file) + ":" + fn
    ensures CallSite(Detail, instance, fn, LastPathComponent(file)) == LastPathComponent(file) + ":" + fn
  {
  }

  /** The default post-message segment: " -- " and the text, or nothing. */
  lemma DefaultPostSegment(debugBuild: bool, postMessage: string)
    ensures PostSegment(DefaultDependency(debugBuild), postMessage) == AddSpacer(" -- ", postMessage)
  {
    assert " --" + " " == " -- ";
  }

  /** The default dependency answers every policy question from its tables. */
  lemma DefaultPolicy(debugBuild: bool, level: Level)
    ensures DefaultDependency(debugBuild).preFix(level) == DefaultPreFix(level)
    ensures DefaultDependency(debugBuild).dateType(level) == DefaultDateType(level)
    ensures DefaultDependency(debugBuild).threadName(level) == DefaultThreadName(level)
    ensures DefaultDependency(debugBuild).classAndMethodName(level) == DefaultClassAndMethodName(level)
    ensures DefaultDependency(debugBuild).fileAndLineNumber(level) == DefaultFileAndLineNumber(level)
  {
  }

  /** Under the default dependency an info line has a millisecond timestamp but no thread, call-site or file:line segment. */
  lemma DefaultInfoLine(debugBuild: bool, message: string, postMessage: string, shifter: int,
                        instance: Instance, fn: string, file: string, line: int, env: Env)
    ensures Format(DefaultDependency(debugBuild), message, postMessage, shifter, Info, instance, fn, file, line, env)
         == Spaces(shifter) + "🔹" + (" [" + env.clock.milliseconds + "]")
            + AddSpacer(" ", message) + AddSpacer(" -- ", postMessage)
  {
    DefaultPolicy(debugBuild, Info);
    DefaultPostSegment(debugBuild, postMessage);
  }

  /** Under the default dependency an enter or exit line has no timestamp and no file:line, shows the
      thread, and labels the call site `.normal`. */
  lemma DefaultEnterExitLine(debugBuild: bool, level: Level, message: string, postMessage: string, shifter: int,
                             instance: Instance, fn: string, file: string, line: int, env: Env)
    requires level == Enter || level == Exit
    ensures Format(DefaultDependency(debugBuild), message, postMessage, shifter, level, instance, fn, file, line, env)
         == Spaces(shifter) + DefaultPreFix(level) + (" [" + ThreadName(env.thread) + "]")
            + AddSpacer(" ", message)
            + ((if message != "" then " --" else "") + " " + CallSite(Normal, instance, fn, LastPathComponent(file)))
            + AddSpacer(" -- ", postMessage)
  {
    DefaultPolicy(debugBuild, level);
    DefaultPostSegment(debugBuild, postMessage);
  }

  /** Under the default dependency debug, warn, error and fatal lines carry every segment, with a
      millisecond timestamp and the `.detail` call-site label. */
  lemma DefaultDiagnosticLine(debugBuild: bool, level: Level, message: string, postMessage: string, shifter: int,
                              instance: Instance, fn: string, file: string, line: int, env: Env)
    requires level == Debug || level == Warn || level == Error || level == Fatal
    ensures Format(DefaultDependency(debugBuild), message, postMessage, shifter, level, instance, fn, file, line, env)
         == Spaces(shifter) + DefaultPreFix(level) + (" [" + env.clock.milliseconds + "]")
            + (" [" + ThreadName(env.thread) + "]")
            + AddSpacer(" ", message)
            + ((if message != "" then " --" else "") + " " + CallSite(Detail, instance, fn, LastPathComponent(file)))
            + AddSpacer(" -- ", postMessage)
            + (" " + LastPathComponent(file) + ":" + IntText(line))
  {
    DefaultPolicy(debugBuild, level);
    DefaultPostSegment(debugBuild, postMessage);
  }

  /** `entered` under the default dependency: the user's text comes after the call-site label, and no
      separator precedes the label. */
  lemma DefaultEnteredLine(debugBuild: bool, text: string, shifter: int, instance: Instance,
                           fn: string, file: string, line: int, env: Env)
    ensures Format(DefaultDependency(debugBuild), "", text, shifter, Enter, instance, fn, file, line, env)
         == Spaces(shifter) + "➡️" + (" [" + ThreadName(env.thread) + "]")
            + (" " + CallSite(Normal, instance, fn, LastPathComponent(file)))
            + AddSpacer(" -- ", text)
  {
    DefaultPolicy(debugBuild, Enter);
    DefaultPostSegment(debugBuild, text);
  }

  /** The default prefixes tell every level apart. */
  lemma DefaultPreFixDistinct(a: Level, b: Level)
    requires a != b
    ensures DefaultPreFix(a) != DefaultPreFix(b)
  {
  }
}
