/** Sources/Logger/Logger+print.swift: `PrintLogger`, a level prefix in front of `buildMessage()`, printed once. */
module PrintSink {
  import opened Optional
  import opened LoggerContext
  import Effects

  /** The prefix table: the trace arrow is bare, every other prefix is a bracketed tag. */
  function PreFix(level: Level): (r: string)
    ensures |r| >= 2
  {
    match level
    case Trace => "➡️"
    case Debug => "[🛠 DEBG]"
    case Info => "[🔵 INFO]"
    case Notice => "[🟢 NOTE]"
    case Warning => "[⚠️ WARN]"
    case Error => "[🚫 ERRR]"
    case Fatal => "[🔥 FATAL]"
    case Deinit => "[❎ DEINIT]"
  }

  /** The printed line. */
  function PrintedLine(c: LogContext, env: Env): string
  {
    PreFix(c.level) + BuildMessage(c, env)
  }

  /** The level a printed line announces: the first table entry the line starts with. */
  function LevelOfLine(line: string): (r: Option<Level>)
    ensures r.Some? ==> PreFix(r.value) <= line
    ensures r.None? ==> forall l :: !(PreFix(l) <= line)
  {
    if PreFix(Trace) <= line then Some(Trace)
    else if PreFix(Debug) <= line then Some(Debug)
    else if PreFix(Info) <= line then Some(Info)
    else if PreFix(Notice) <= line then Some(Notice)
    else if PreFix(Warning) <= line then Some(Warning)
    else if PreFix(Error) <= line then Some(Error)
    else if PreFix(Fatal) <= line then Some(Fatal)
    else if PreFix(Deinit) <= line then Some(Deinit)
    else None
  }

  /** No prefix starts another level's line: their first two characters already differ. */
  lemma PreFixDetermines(a: Level, b: Level, rest: string)
    requires PreFix(a) <= PreFix(b) + rest
    ensures a == b
  {
    var line := PreFix(b) + rest;
    assert PreFix(a)[0] == line[0] == PreFix(b)[0];
    assert PreFix(a)[1] == line[1] == PreFix(b)[1];
  }

  /** The prefix table's values are pairwise distinct. */
  lemma PreFixDistinct(a: Level, b: Level)
    requires a != b
    ensures PreFix(a) != PreFix(b)
  {
  }

  /** The trace prefix is the bare arrow: no bracket and no trailing space. */
  lemma TracePreFixIsBare()
    ensures PreFix(Trace) == "➡️"
    ensures '[' !in PreFix(Trace) && ' ' !in PreFix(Trace)
  {
  }

  /** Every printed line announces the level it was printed at. */
  lemma LevelOfPrintedLine(c: LogContext, env: Env)
    ensures LevelOfLine(PrintedLine(c, env)) == Some(c.level)
  {
    var line := PrintedLine(c, env);
    forall l | PreFix(l) <= line
      ensures l == c.level
    {
      PreFixDetermines(l, c.level, BuildMessage(c, env));
    }
  }

  /** `PrintLogger.log(_:)`: picks the prefix, builds the line and prints it once. */
  method Log(context: LogContext, env: Env, trace: Effects.Trace<Event>)
    modifies trace
    ensures trace.events == old(trace.events) + [Printed(PrintedLine(context, env))]
  {
    var preFix: string := "";
    match context.level {
      case Trace => preFix := "➡️";
      case Debug => preFix := "[🛠 DEBG]";
      case Info => preFix := "[🔵 INFO]";
      case Notice => preFix := "[🟢 NOTE]";
      case Warning => preFix := "[⚠️ WARN]";
      case Error => preFix := "[🚫 ERRR]";
      case Fatal => preFix := "[🔥 FATAL]";
      case Deinit => preFix := "[❎ DEINIT]";
    }
    var formatted := preFix + BuildMessage(context, env);
    trace.Append([Printed(formatted)]);
  }
}
