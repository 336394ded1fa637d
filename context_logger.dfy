/**
 * Sources/Logger/Logger.swift: the `Logger` of the context-based design. It holds a
 * `LoggerDependency` and an optional level list, filters each per-level call, builds a
 * `LogContext` and forwards it to the dependency once.
 */
module ContextLogger {
  import opened Optional
  import opened Runtime
  import opened LoggerContext
  import LevelFilter
  import PrintSink
  import OsLogSink
  import Effects

  /**
   * The two `LoggerDependency` implementations of this design, and any other a caller plugs in;
   * what such a dependency does with the context is its own business, so it is recorded as received.
   */
  datatype Dependency = PrintLogger | OsLogger | Custom(id: nat)

  /** What `dep.log(context)` emits: exactly one line, printed or sent to `os_log`. */
  function Emission(dep: Dependency, c: LogContext, env: Env): (r: seq<Event>)
    ensures |r| == 1
    ensures dep == PrintLogger ==> r[0].Printed? && r[0].text == PrintSink.PrintedLine(c, env)
    ensures dep == OsLogger ==> r[0].OsLogged? && r[0].text == OsLogSink.OsLine(c, env)
    ensures dep.Custom? ==> r[0] == Received(dep.id, c)
  {
    match dep
    case PrintLogger => [Printed(PrintSink.PrintedLine(c, env))]
    case OsLogger => [OsLogged(OsLogSink.OsLine(c, env))]
    case Custom(id) => [Received(id, c)]
  }

  /** What one per-level call emits: nothing when the level is filtered out, else the context's emission. */
  function LevelCall(dep: Dependency, levels: Option<seq<Level>>, level: Level, message: Value,
                     instance: Instance, fn: string, file: string, line: int, env: Env): (r: seq<Event>)
    ensures r == [] <==> !(levels.None? || level in levels.value)
    ensures r != [] ==> r == Emission(dep, NewContext(level, message, instance, fn, file, line), env)
  {
    if LevelFilter.ContainsOrNil(levels, level) then Emission(dep, NewContext(level, message, instance, fn, file, line), env)
    else []
  }

  class Logger {
    var dep: Dependency
    var levels: Option<seq<Level>>

    /** `init()`: prints, with no level list. */
    constructor ()
      ensures dep == PrintLogger && levels == None
      ensures !IsDisabled() && forall l :: IsEnabled(l)
    {
      dep := PrintLogger;
      levels := None;
    }

    /** `init(_:)` with a dependency. */
    constructor WithDependency(dependency: Dependency)
      ensures dep == dependency && levels == None
    {
      dep := dependency;
      levels := None;
    }

    method SetDependency(dependency: Dependency) returns (self: Logger)
      modifies this
      ensures dep == dependency && levels == old(levels) && self == this
    {
      dep := dependency;
      self := this;
    }

    method SetLevel(newLevels: seq<Level>) returns (self: Logger)
      modifies this
      ensures levels == Some(newLevels) && dep == old(dep) && self == this
    {
      levels := Some(newLevels);
      self := this;
    }

    /** The `isDisabled` getter: true exactly when the level list is present and empty, which is when no level is enabled. */
    predicate IsDisabled()
      reads this
      ensures IsDisabled() <==> levels == Some([])
      ensures IsDisabled() <==> forall l :: !IsEnabled(l)
    {
      match levels
      case None =>
        assert IsEnabled(Level.Trace);
        false
      case Some(ls) =>
        assert ls != [] ==> IsEnabled(ls[0]);
        |ls| == 0
    }

    /** The `isDisabled` setter: `true` installs the empty list, `false` removes the list. */
    method SetIsDisabled(newValue: bool)
      modifies this
      ensures levels == (if newValue then Some([]) else None) && dep == old(dep)
      ensures IsDisabled() == newValue
      ensures forall l :: IsEnabled(l) == !newValue
    {
      if newValue {
        levels := Some([]);
      } else {
        levels := None;
      }
    }

    /** `isEnabled(_:)`: no list enables every level; a list enables its members only. */
    predicate IsEnabled(level: Level)
      reads this
      ensures IsEnabled(level) <==> levels.None? || level in levels.value
    {
      LevelFilter.ContainsOrNil(levels, level)
    }

    /** `log(_:)`: hands the context to the dependency once. */
    method Log(context: LogContext, env: Env, trace: Effects.Trace<Event>)
      modifies trace
      ensures trace.events == old(trace.events) + Emission(dep, context, env)
    {
      match dep {
        case PrintLogger => PrintSink.Log(context, env, trace);
        case OsLogger => OsLogSink.Log(context, env, trace);
        case Custom(id) => trace.Append([Received(id, context)]);
      }
    }

    /** `entered(_:message:)`: logs at `.trace`. */
    method Entered(instance: Instance, message: Value, fn: string, file: string, line: int, env: Env, trace: Effects.Trace<Event>)
      modifies trace
      ensures trace.events == old(trace.events) + LevelCall(dep, levels, Level.Trace, message, instance, fn, file, line, env)
    {
      if !IsEnabled(Level.Trace) {
        return;
      }
      var context := NewContext(Level.Trace, message, instance, fn, file, line);
      Log(context, env, trace);
    }

    method Info(message: Value, instance: Instance, fn: string, file: string, line: int, env: Env, trace: Effects.Trace<Event>)
      modifies trace
      ensures trace.events == old(trace.events) + LevelCall(dep, levels, Level.Info, message, instance, fn, file, line, env)
    {
      if !IsEnabled(Level.Info) {
        return;
      }
      var context := NewContext(Level.Info, message, instance, fn, file, line);
      Log(context, env, trace);
    }

    method Debug(message: Value, instance: Instance, fn: string, file: string, line: int, env: Env, trace: Effects.Trace<Event>)
      modifies trace
      ensures trace.events == old(trace.events) + LevelCall(dep, levels, Level.Debug, message, instance, fn, file, line, env)
    {
      if !IsEnabled(Level.Debug) {
        return;
      }
      var context := NewContext(Level.Debug, message, instance, fn, file, line);
      Log(context, env, trace);
    }

    method Notice(message: Value, instance: Instance, fn: string, file: string, line: int, env: Env, trace: Effects.Trace<Event>)
      modifies trace
      ensures trace.events == old(trace.events) + LevelCall(dep, levels, Level.Notice, message, instance, fn, file, line, env)
    {
      if !IsEnabled(Level.Notice) {
        return;
      }
      var context := NewContext(Level.Notice, message, instance, fn, file, line);
      Log(context, env, trace);
    }

    method Warning(message: Value, instance: Instance, fn: string, file: string, line: int, env: Env, trace: Effects.Trace<Event>)
      modifies trace
      ensures trace.events == old(trace.events) + LevelCall(dep, levels, Level.Warning, message, instance, fn, file, line, env)
    {
      if !IsEnabled(Level.Warning) {
        return;
      }
      var context := NewContext(Level.Warning, message, instance, fn, file, line);
      Log(context, env, trace);
    }

    method Error(message: Value, instance: Instance, fn: string, file: string, line: int, env: Env, trace: Effects.Trace<Event>)
      modifies trace
      ensures trace.events == old(trace.events) + LevelCall(dep, levels, Level.Error, message, instance, fn, file, line, env)
    {
      if !IsEnabled(Level.Error) {
        return;
      }
      var context := NewContext(Level.Error, message, instance, fn, file, line);
      Log(context, env, trace);
    }

    method Fatal(message: Value, instance: Instance, fn: string, file: string, line: int, env: Env, trace: Effects.Trace<Event>)
      modifies trace
      ensures trace.events == old(trace.events) + LevelCall(dep, levels, Level.Fatal, message, instance, fn, file, line, env)
    {
      if !IsEnabled(Level.Fatal) {
        return;
      }
      var context := NewContext(Level.Fatal, message, instance, fn, file, line);
      Log(context, env, trace);
    }

    /** `deinit(_:message:)`: logs at `.deinit`. */
    method Deinit(instance: Instance, message: Value, fn: string, file: string, line: int, env: Env, trace: Effects.Trace<Event>)
      modifies trace
      ensures trace.events == old(trace.events) + LevelCall(dep, levels, Level.Deinit, message, instance, fn, file, line, env)
    {
      if !IsEnabled(Level.Deinit) {
        return;
      }
      var context := NewContext(Level.Deinit, message, instance, fn, file, line);
      Log(context, env, trace);
    }
  }
}
