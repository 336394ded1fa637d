/**
 * Sources/BwLogger/Core/Logger.swift and Sources/BwLogger/Core/LogExtraInformation.swift: the
 * single-output `Logger`. Its level methods check the level, build a record with their own level
 * and prefix and forward it; `log(_:)` itself forwards without filtering.
 */
module BwCoreLogger {
  import opened Optional
  import opened Runtime
  import opened BwCoreInformation
  import LevelFilter
  import BwCoreSinks
  import Effects

  /** What a gated call emits: nothing when the level is filtered out, else the record's emission. */
  function GatedCall(output: BwCoreSinks.Output, levels: Option<seq<Level>>, gate: Level, level: Level, prefix: string,
                     message: Value, instance: Option<Instance>, fn: string, file: string, line: int,
                     now: Instant, env: Env): (r: seq<BwCoreSinks.Event>)
    ensures !LevelFilter.GuardEnabled(levels, gate) ==> r == []
    ensures LevelFilter.GuardEnabled(levels, gate)
            ==> r == BwCoreSinks.Emission(output, NewInformation(level, prefix, message, instance, fn, file, line, now), env)
  {
    if !LevelFilter.GuardEnabled(levels, gate) then []
    else BwCoreSinks.Emission(output, NewInformation(level, prefix, message, instance, fn, file, line, now), env)
  }

  class Logger {
    var output: BwCoreSinks.Output
    var levels: Option<seq<Level>>

    /** `init(_:)`: no level list, so every level is enabled. */
    constructor (output: BwCoreSinks.Output)
      ensures this.output == output && levels == None
      ensures forall l :: IsEnabled(l)
    {
      this.output := output;
      levels := None;
    }

    method SetLevel(newLevels: seq<Level>) returns (self: Logger)
      modifies this
      ensures levels == Some(newLevels) && output == old(output) && self == this
    {
      levels := Some(newLevels);
      self := this;
    }

    /** `log(_:)` with a record: forwarded to the output once, unfiltered. */
    method Log(context: LogInformation, env: Env, trace: Effects.Trace<BwCoreSinks.Event>)
      modifies trace
      ensures trace.events == old(trace.events) + BwCoreSinks.Emission(output, context, env)
    {
      BwCoreSinks.Log(output, context, env, trace);
    }

    /** `isEnabled(_:)`: no list enables every level; a list enables its members only. */
    predicate IsEnabled(level: Level)
      reads this
      ensures IsEnabled(level) <==> levels.None? || level in levels.value
    {
      LevelFilter.GuardEnabled(levels, level)
    }

    /** The `log(_:instance:)` level method. */
    method LogMessage(message: Value, instance: Option<Instance>, fn: string, file: string, line: int,
                      now: Instant, env: Env, trace: Effects.Trace<BwCoreSinks.Event>)
      modifies trace
      ensures trace.events == old(trace.events) + GatedCall(output, levels, Level.Log, Level.Log, "", message, instance, fn, file, line, now, env)
    {
      if !IsEnabled(Level.Log) {
        return;
      }
      var context := NewInformation(Level.Log, "", message, instance, fn, file, line, now);
      Log(context, env, trace);
    }

    method Info(message: Value, instance: Option<Instance>, fn: string, file: string, line: int,
                now: Instant, env: Env, trace: Effects.Trace<BwCoreSinks.Event>)
      modifies trace
      ensures trace.events == old(trace.events) + GatedCall(output, levels, Level.Info, Level.Info, "🔵", message, instance, fn, file, line, now, env)
    {
      if !IsEnabled(Level.Info) {
        return;
      }
      var context := NewInformation(Level.Info, "🔵", message, instance, fn, file, line, now);
      Log(context, env, trace);
    }

    method Debug(message: Value, instance: Option<Instance>, fn: string, file: string, line: int,
                 now: Instant, env: Env, trace: Effects.Trace<BwCoreSinks.Event>)
      modifies trace
      ensures trace.events == old(trace.events) + GatedCall(output, levels, Level.Debug, Level.Debug, "🛠", message, instance, fn, file, line, now, env)
    {
      if !IsEnabled(Level.Debug) {
        return;
      }
      var context := NewInformation(Level.Debug, "🛠", message, instance, fn, file, line, now);
      Log(context, env, trace);
    }

    method Warning(message: Value, instance: Option<Instance>, fn: string, file: string, line: int,
                   now: Instant, env: Env, trace: Effects.Trace<BwCoreSinks.Event>)
      modifies trace
      ensures trace.events == old(trace.events) + GatedCall(output, levels, Level.Warning, Level.Warning, "⚠️", message, instance, fn, file, line, now, env)
    {
      if !IsEnabled(Level.Warning) {
        return;
      }
      var context := NewInformation(Level.Warning, "⚠️", message, instance, fn, file, line, now);
      Log(context, env, trace);
    }

    method Error(message: Value, instance: Option<Instance>, fn: string, file: string, line: int,
                 now: Instant, env: Env, trace: Effects.Trace<BwCoreSinks.Event>)
      modifies trace
      ensures trace.events == old(trace.events) + GatedCall(output, levels, Level.Error, Level.Error, "🚫", message, instance, fn, file, line, now, env)
    {
      if !IsEnabled(Level.Error) {
        return;
      }
      var context := NewInformation(Level.Error, "🚫", message, instance, fn, file, line, now);
      Log(context, env, trace);
    }

    method Fault(message: Value, instance: Option<Instance>, fn: string, file: string, line: int,
                 now: Instant, env: Env, trace: Effects.Trace<BwCoreSinks.Event>)
      modifies trace
      ensures trace.events == old(trace.events) + GatedCall(output, levels, Level.Fault, Level.Fault, "🔥", message, instance, fn, file, line, now, env)
    {
      if !IsEnabled(Level.Fault) {
        return;
      }
      var context := NewInformation(Level.Fault, "🔥", message, instance, fn, file, line, now);
      Log(context, env, trace);
    }

    /** `entered(_:message:)` of LogExtraInformation.swift: a `.log` record prefixed "➡️", gated on `.log`. */
    method Entered(instance: Instance, message: Value, fn: string, file: string, line: int,
                   now: Instant, env: Env, trace: Effects.Trace<BwCoreSinks.Event>)
      modifies trace
      ensures trace.events == old(trace.events) + GatedCall(output, levels, Level.Log, Level.Log, "➡️", message, Some(instance), fn, file, line, now, env)
    {
      if !IsEnabled(Level.Log) {
        return;
      }
      var context := NewInformation(Level.Log, "➡️", message, Some(instance), fn, file, line, now);
      Log(context, env, trace);
    }

    /** `deinit(_:message:)` of LogExtraInformation.swift: a `.log` record prefixed "❎", gated on `.log`. */
    method Deinit(instance: Instance, message: Value, fn: string, file: string, line: int,
                  now: Instant, env: Env, trace: Effects.Trace<BwCoreSinks.Event>)
      modifies trace
      ensures trace.events == old(trace.events) + GatedCall(output, levels, Level.Log, Level.Log, "❎", message, Some(instance), fn, file, line, now, env)
    {
      if !IsEnabled(Level.Log) {
        return;
      }
      var context := NewInformation(Level.Log, "❎", message, Some(instance), fn, file, line, now);
      Log(context, env, trace);
    }
  }

  /**
   * `entered`/`deinit` always pass their instance on, so with the default instance `""` the record
   * names the call "String:<function>" rather than the bare function.
   */
  lemma DefaultInstanceNamesString(prefix: string, message: Value, fn: string, file: string, line: int, now: Instant)
    ensures MethodName(NewInformation(Log, prefix, message, Some(DefaultInstance), fn, file, line, now)) == "String:" + fn
  {
    assert "String" + ":" == "String:";
  }

  /** `LogExtraInformation`: an optional prefix and an optional message. */
  datatype LogExtraInformation = LogExtraInformation(prefix: Option<string>, message: Option<Value>)

  /** The message part of `description`: the message when it is a `String`, "" otherwise. */
  function StringMessage(message: Option<Value>): (r: string)
    ensures message.Some? && message.value.Text? ==> r == message.value.text
    ensures !(message.Some? && message.value.Text?) ==> r == ""
  {
    match message
    case Some(Text(s)) => s
    case _ => ""
  }

  /** `description`: the prefix or "", one space, and the `String` message or "". */
  function Description(extra: LogExtraInformation): (r: string)
    ensures |r| == |extra.prefix.GetOr("")| + 1 + |StringMessage(extra.message)|
    ensures r[..|extra.prefix.GetOr("")|] == extra.prefix.GetOr("")
    ensures r[|extra.prefix.GetOr("")|] == ' '
    ensures r[|extra.prefix.GetOr("")| + 1..] == StringMessage(extra.message)
  {
    extra.prefix.GetOr("") + " " + StringMessage(extra.message)
  }

  /**
   * A prefix without spaces is recovered from the description, and so is the message: two records
   * that describe alike have the same prefix and the same `String` message.
   */
  lemma DescriptionDetermines(a: LogExtraInformation, b: LogExtraInformation)
    requires ' ' !in a.prefix.GetOr("") && ' ' !in b.prefix.GetOr("")
    requires Description(a) == Description(b)
    ensures a.prefix.GetOr("") == b.prefix.GetOr("")
    ensures StringMessage(a.message) == StringMessage(b.message)
  {
  }

  /** Two absent fields still describe as a single space. */
  lemma EmptyExtraIsOneSpace()
    ensures Description(LogExtraInformation(None, None)) == " "
  {
  }
}
