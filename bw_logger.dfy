/**
 * Sources/BwLogger/Logger.swift: the multi-output `Logger`, with its level methods and the helper
 * families of Sources/BwLogger/Extension/Logger+Ext.swift, Extension/Logger+ExtLevel.swift and
 * Extra/Logger+ExtraLevel.swift. `log(_:)` filters on the record's level and then hands the same
 * record to every output, in list order.
 */
module BwLogger {
  import opened Optional
  import opened Runtime
  import opened BwInformation
  import LevelFilter
  import BwSinks
  import BwCoreLogger
  import Effects

  /** What the outputs emit for one record, in list order. */
  function FanOut(outputs: seq<BwSinks.Output>, info: LogInformation, env: Env): (r: seq<BwSinks.Event>)
    ensures |r| == |outputs|
    decreases |outputs|
  {
    if outputs == [] then []
    else FanOut(outputs[..|outputs| - 1], info, env) + [BwSinks.Emission(outputs[|outputs| - 1], info, env)]
  }

  /** Output k emits the k-th event: every output is called once, with the same record, in order. */
  lemma {:induction false} FanOutInOrder(outputs: seq<BwSinks.Output>, info: LogInformation, env: Env)
    ensures forall k :: 0 <= k < |outputs| ==> FanOut(outputs, info, env)[k] == BwSinks.Emission(outputs[k], info, env)
    decreases |outputs|
  {
    if outputs != [] {
      var init := outputs[..|outputs| - 1];
      FanOutInOrder(init, info, env);
      forall k | 0 <= k < |outputs|
        ensures FanOut(outputs, info, env)[k] == BwSinks.Emission(outputs[k], info, env)
      {
        if k < |init| {
          assert outputs[k] == init[k];
        }
      }
    }
  }

  /** Fanning out to two lists in turn is fanning out to their concatenation. */
  lemma {:induction false} FanOutAppend(a: seq<BwSinks.Output>, b: seq<BwSinks.Output>, info: LogInformation, env: Env)
    ensures FanOut(a + b, info, env) == FanOut(a, info, env) + FanOut(b, info, env)
    decreases |b|
  {
    if b == [] {
      assert a + b == a;
    } else {
      var binit := b[..|b| - 1];
      assert (a + b)[..|a + b| - 1] == a + binit;
      FanOutAppend(a, binit, info, env);
    }
  }

  /** What `log(_:)` emits: nothing for a filtered level, the fan-out otherwise. */
  function Dispatch(outputs: seq<BwSinks.Output>, levels: Option<seq<Level>>, info: LogInformation, env: Env): (r: seq<BwSinks.Event>)
    ensures !LevelFilter.GuardEnabled(levels, info.level) ==> r == []
    ensures LevelFilter.GuardEnabled(levels, info.level) ==> |r| == |outputs|
  {
    if LevelFilter.GuardEnabled(levels, info.level) then FanOut(outputs, info, env) else []
  }

  class Logger {
    var outputs: seq<BwSinks.Output>
    var levels: Option<seq<Level>>

    /** `init(_:levels:)`; the default `levels: nil` replaces the field's `[]` initialiser. */
    constructor (outputs: seq<BwSinks.Output>, levels: Option<seq<Level>>)
      ensures this.outputs == outputs && this.levels == levels
    {
      this.outputs := outputs;
      this.levels := levels;
    }

    /** `init(_:)` with the default level list: every level is enabled. */
    constructor WithOutputs(outputs: seq<BwSinks.Output>)
      ensures this.outputs == outputs && levels == None
      ensures forall l :: IsEnabled(l)
    {
      this.outputs := outputs;
      levels := None;
    }

    /** `isEnabled(_:)`: no list enables every level; a list enables its members only. */
    predicate IsEnabled(level: Level)
      reads this
      ensures IsEnabled(level) <==> levels.None? || level in levels.value
    {
      LevelFilter.GuardEnabled(levels, level)
    }

    method SetOutput(newOutputs: seq<BwSinks.Output>) returns (self: Logger)
      modifies this
      ensures outputs == newOutputs && levels == old(levels) && self == this
    {
      outputs := newOutputs;
      self := this;
    }

    /** `setLogOutput(_:)`: the same as `setOutput(_:)`. */
    method SetLogOutput(newOutputs: seq<BwSinks.Output>) returns (self: Logger)
      modifies this
      ensures outputs == newOutputs && levels == old(levels) && self == this
    {
      self := SetOutput(newOutputs);
    }

    /** `setLevel(_:)`; `nil` is allowed and enables every level again. */
    method SetLevel(newLevels: Option<seq<Level>>) returns (self: Logger)
      modifies this
      ensures levels == newLevels && outputs == old(outputs) && self == this
    {
      levels := newLevels;
      self := this;
    }

    /** `log(_:)` with a record: the level guard, then each output in turn. */
    method Log(log: LogInformation, env: Env, trace: Effects.Trace<BwSinks.Event>)
      modifies trace
      ensures trace.events == old(trace.events) + Dispatch(outputs, levels, log, env)
    {
      if !IsEnabled(log.level) {
        return;
      }
      var i := 0;
      while i < |outputs|
        invariant 0 <= i <= |outputs|
        invariant trace.events == old(trace.events) + FanOut(outputs[..i], log, env)
      {
        BwSinks.Log(outputs[i], log, env, trace);
        assert outputs[..i + 1][..i] == outputs[..i];
        i := i + 1;
      }
      assert outputs[..i] == outputs;
    }

    /** The `log(_:instance:)` level method: a `.log` record without prefix, filtered by `log(_:)`. */
    method LogMessage(message: Value, instance: Option<Instance>, fn: string, file: string, line: int,
                      now: Instant, env: Env, trace: Effects.Trace<BwSinks.Event>)
      modifies trace
      ensures trace.events == old(trace.events) + Dispatch(outputs, levels, NewInformation(Level.Log, message, fn, file, line, None, instance, now), env)
    {
      Log(NewInformation(Level.Log, message, fn, file, line, None, instance, now), env, trace);
    }

    method Info(message: Value, instance: Option<Instance>, fn: string, file: string, line: int,
                now: Instant, env: Env, trace: Effects.Trace<BwSinks.Event>)
      modifies trace
      ensures trace.events == old(trace.events) + Dispatch(outputs, levels, NewInformation(Level.Info, message, fn, file, line, None, instance, now), env)
    {
      Log(NewInformation(Level.Info, message, fn, file, line, None, instance, now), env, trace);
    }

    method Debug(message: Value, instance: Option<Instance>, fn: string, file: string, line: int,
                 now: Instant, env: Env, trace: Effects.Trace<BwSinks.Event>)
      modifies trace
      ensures trace.events == old(trace.events) + Dispatch(outputs, levels, NewInformation(Level.Debug, message, fn, file, line, None, instance, now), env)
    {
      Log(NewInformation(Level.Debug, message, fn, file, line, None, instance, now), env, trace);
    }

    method Warning(message: Value, instance: Option<Instance>, fn: string, file: string, line: int,
                   now: Instant, env: Env, trace: Effects.Trace<BwSinks.Event>)
      modifies trace
      ensures trace.events == old(trace.events) + Dispatch(outputs, levels, NewInformation(Level.Warning, message, fn, file, line, None, instance, now), env)
    {
      Log(NewInformation(Level.Warning, message, fn, file, line, None, instance, now), env, trace);
    }

    method Error(message: Value, instance: Option<Instance>, fn: string, file: string, line: int,
                 now: Instant, env: Env, trace: Effects.Trace<BwSinks.Event>)
      modifies trace
      ensures trace.events == old(trace.events) + Dispatch(outputs, levels, NewInformation(Level.Error, message, fn, file, line, None, instance, now), env)
    {
      Log(NewInformation(Level.Error, message, fn, file, line, None, instance, now), env, trace);
    }

    method Fault(message: Value, instance: Option<Instance>, fn: string, file: string, line: int,
                 now: Instant, env: Env, trace: Effects.Trace<BwSinks.Event>)
      modifies trace
      ensures trace.events == old(trace.events) + Dispatch(outputs, levels, NewInformation(Level.Fault, message, fn, file, line, None, instance, now), env)
    {
      Log(NewInformation(Level.Fault, message, fn, file, line, None, instance, now), env, trace);
    }

    /**
     * The gated helpers (`entered`/`deinit` of Logger+Ext.swift, `entered`/`deinit`/`json` of
     * Logger+ExtLevel.swift): check `.log` first, then log a `.log` record with the helper's prefix.
     */
    method GatedHelper(prefix: string, message: Value, instance: Option<Instance>, fn: string, file: string, line: int,
                       now: Instant, env: Env, trace: Effects.Trace<BwSinks.Event>)
      modifies trace
      ensures !IsEnabled(Level.Log) ==> trace.events == old(trace.events)
      ensures trace.events == old(trace.events) + Dispatch(outputs, levels, NewInformation(Level.Log, message, fn, file, line, Some(prefix), instance, now), env)
    {
      if !IsEnabled(Level.Log) {
        return;
      }
      Log(NewInformation(Level.Log, message, fn, file, line, Some(prefix), instance, now), env, trace);
    }

    /** `entered(_:message:)` of Logger+Ext.swift. */
    method Entered(instance: Option<Instance>, message: Value, fn: string, file: string, line: int,
                   now: Instant, env: Env, trace: Effects.Trace<BwSinks.Event>)
      modifies trace
      ensures trace.events == old(trace.events) + Dispatch(outputs, levels, NewInformation(Level.Log, message, fn, file, line, Some("➡️"), instance, now), env)
    {
      GatedHelper("➡️", message, instance, fn, file, line, now, env, trace);
    }

    /** `deinit(_:message:)` of Logger+Ext.swift. */
    method Deinit(instance: Option<Instance>, message: Value, fn: string, file: string, line: int,
                  now: Instant, env: Env, trace: Effects.Trace<BwSinks.Event>)
      modifies trace
      ensures trace.events == old(trace.events) + Dispatch(outputs, levels, NewInformation(Level.Log, message, fn, file, line, Some("❎"), instance, now), env)
    {
      GatedHelper("❎", message, instance, fn, file, line, now, env, trace);
    }

    /** `entered(_:message:)` of Logger+ExtLevel.swift. */
    method LevelEntered(instance: Option<Instance>, message: Value, fn: string, file: string, line: int,
                        now: Instant, env: Env, trace: Effects.Trace<BwSinks.Event>)
      modifies trace
      ensures trace.events == old(trace.events) + Dispatch(outputs, levels, NewInformation(Level.Log, message, fn, file, line, Some("➡️ENTER"), instance, now), env)
    {
      GatedHelper("➡️ENTER", message, instance, fn, file, line, now, env, trace);
    }

    /** `deinit(_:message:)` of Logger+ExtLevel.swift. */
    method LevelDeinit(instance: Option<Instance>, message: Value, fn: string, file: string, line: int,
                       now: Instant, env: Env, trace: Effects.Trace<BwSinks.Event>)
      modifies trace
      ensures trace.events == old(trace.events) + Dispatch(outputs, levels, NewInformation(Level.Log, message, fn, file, line, Some("❎DEINIT"), instance, now), env)
    {
      GatedHelper("❎DEINIT", message, instance, fn, file, line, now, env, trace);
    }

    /** `json(jsonData:)` of Logger+ExtLevel.swift; `decoded` is what `decodeJsonData` made of the data. */
    method LevelJson(decoded: string, instance: Option<Instance>, fn: string, file: string, line: int,
                     now: Instant, env: Env, trace: Effects.Trace<BwSinks.Event>)
      modifies trace
      ensures trace.events == old(trace.events) + Dispatch(outputs, levels, NewInformation(Level.Log, Text(decoded), fn, file, line, Some("🌍JSON"), instance, now), env)
    {
      GatedHelper("🌍JSON", Text(decoded), instance, fn, file, line, now, env, trace);
    }

    /** `entered(_:message:)` of Logger+ExtraLevel.swift: no local check, `log(_:)` filters. */
    method ExtraEntered(instance: Option<Instance>, message: Value, fn: string, file: string, line: int,
                        now: Instant, env: Env, trace: Effects.Trace<BwSinks.Event>)
      modifies trace
      ensures trace.events == old(trace.events) + Dispatch(outputs, levels, NewInformation(Level.Log, message, fn, file, line, Some("#ENTER"), instance, now), env)
    {
      Log(NewInformation(Level.Log, message, fn, file, line, Some("#ENTER"), instance, now), env, trace);
    }

    /** `deinit(_:message:)` of Logger+ExtraLevel.swift. */
    method ExtraDeinit(instance: Option<Instance>, message: Value, fn: string, file: string, line: int,
                       now: Instant, env: Env, trace: Effects.Trace<BwSinks.Event>)
      modifies trace
      ensures trace.events == old(trace.events) + Dispatch(outputs, levels, NewInformation(Level.Log, message, fn, file, line, Some("#DE-INITED"), instance, now), env)
    {
      Log(NewInformation(Level.Log, message, fn, file, line, Some("#DE-INITED"), instance, now), env, trace);
    }

    /** `json(jsonData:)` of Logger+ExtraLevel.swift. */
    method ExtraJson(decoded: string, instance: Option<Instance>, fn: string, file: string, line: int,
                     now: Instant, env: Env, trace: Effects.Trace<BwSinks.Event>)
      modifies trace
      ensures trace.events == old(trace.events) + Dispatch(outputs, levels, NewInformation(Level.Log, Text(decoded), fn, file, line, Some("#JSON"), instance, now), env)
    {
      Log(NewInformation(Level.Log, Text(decoded), fn, file, line, Some("#JSON"), instance, now), env, trace);
    }
  }

  /**
   * When the record's level passes the list, output k, built-in or caller-supplied, receives that
   * very record as the k-th event.
   */
  lemma EnabledReachesEveryOutput(outputs: seq<BwSinks.Output>, levels: Option<seq<Level>>, info: LogInformation, env: Env)
    requires LevelFilter.GuardEnabled(levels, info.level)
    ensures |Dispatch(outputs, levels, info, env)| == |outputs|
    ensures forall k :: 0 <= k < |outputs| ==> Dispatch(outputs, levels, info, env)[k] == BwSinks.Emission(outputs[k], info, env)
    ensures forall k :: 0 <= k < |outputs| && outputs[k].Custom? ==> Dispatch(outputs, levels, info, env)[k] == BwSinks.Received(outputs[k].id, info)
  {
    FanOutInOrder(outputs, info, env);
  }

  /**
   * A helper's own `.log` check never changes what is emitted: its records all have level `.log`,
   * which `log(_:)` checks anyway, so for every level list the gated and the ungated helper agree.
   */
  lemma HelperGateIsRedundant(outputs: seq<BwSinks.Output>, levels: Option<seq<Level>>, info: LogInformation, env: Env)
    requires info.level == Level.Log
    ensures (if LevelFilter.GuardEnabled(levels, Level.Log) then Dispatch(outputs, levels, info, env) else [])
         == Dispatch(outputs, levels, info, env)
  {
  }

  /** `LogExtraInformation` of Logger+Ext.swift: like the single-output one, with the calling function. */
  datatype LogExtraInformation = LogExtraInformation(fn: string, message: Option<Value>, prefix: Option<string>)

  /** `description`: the same text as the single-output `description` of the same prefix and message. */
  function Description(extra: LogExtraInformation): (r: string)
    ensures |r| == |extra.prefix.GetOr("")| + 1 + |BwCoreLogger.StringMessage(extra.message)|
    ensures r[..|extra.prefix.GetOr("")|] == extra.prefix.GetOr("")
    ensures r[|extra.prefix.GetOr("")|] == ' '
    ensures r[|extra.prefix.GetOr("")| + 1..] == BwCoreLogger.StringMessage(extra.message)
  {
    BwCoreLogger.Description(BwCoreLogger.LogExtraInformation(extra.prefix, extra.message))
  }

  /** The function does not take part in the description. */
  lemma DescriptionIgnoresFunction(extra: LogExtraInformation, fn: string)
    ensures Description(extra) == Description(extra.(fn := fn))
  {
  }
}
