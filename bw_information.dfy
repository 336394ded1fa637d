/**
 * Sources/BwLogger/LogInformation.swift (the same struct is declared again at
 * Sources/BwLogger/Logger.swift:104-165 with a message-first initialiser): the record of the
 * multi-output generation. Its prefix is optional and its `objectName` is computed once, when the
 * record is made.
 */
module BwInformation {
  import opened Optional
  import opened Runtime
  import BwCoreInformation

  /** `Logger.Level`: the same six cases and raw values as the single-output generation's enum. */
  type Level = BwCoreInformation.Level

  type Instant = BwCoreInformation.Instant

  type Env = BwCoreInformation.Env

  datatype LogInformation = LogInformation(
    level: Level, message: string, date: Instant, objectName: string,
    fn: string, file: string, line: int, prefix: Option<string>)

  /** `objectName`: "<type name>:<function>" when an instance is passed, the bare function otherwise. */
  function ObjectName(instance: Option<Instance>, fn: string): (r: string)
    ensures instance.None? ==> r == fn
    ensures instance.Some? ==> r == instance.value.typeName + ":" + fn
  {
    match instance
    case None => fn
    case Some(i) => i.typeName + ":" + fn
  }

  /**
   * `init(level:message:function:file:line:prefix:instance:)` and `init(_:level:function:file:line:prefix:instance:)`;
   * `now` is `Date()` at that moment. The instance itself is not kept, only the object name made from it.
   */
  function NewInformation(level: Level, message: Value, fn: string, file: string, line: int,
                          prefix: Option<string>, instance: Option<Instance>, now: Instant): (info: LogInformation)
    ensures info.level == level && info.prefix == prefix && info.date == now
    ensures info.fn == fn && info.file == file && info.line == line
    ensures message.Text? ==> info.message == message.text
    ensures message.Described? ==> info.message == message.description
    ensures info.objectName == ObjectName(instance, fn)
  {
    LogInformation(level, Coerce(message), now, ObjectName(instance, fn), fn, file, line, prefix)
  }

  /** `timestamp(_:)`: the stored date in the given format. */
  function Timestamp(info: LogInformation, format: string, env: Env): string
  {
    env.format(info.date, format)
  }

  /** `timestamp()` with its default format. */
  function DefaultTimestamp(info: LogInformation, env: Env): string
  {
    Timestamp(info, BwCoreInformation.DefaultTimestampFormat, env)
  }

  /** `threadName`: the calling thread's resolved name. */
  function ThreadName(env: Env): string
  {
    Runtime.ThreadName(env.thread)
  }

  /** `fileName`: the last path component of the file. */
  function FileName(info: LogInformation): string
  {
    LastPathComponent(info.file)
  }

  /**
   * The date is captured once: whenever and however often a record is formatted, its timestamp is
   * the creation instant in that format.
   */
  lemma TimestampIsCaptureTime(level: Level, message: Value, fn: string, file: string, line: int,
                               prefix: Option<string>, instance: Option<Instance>, now: Instant,
                               env: Env, later: Env)
    requires later.format == env.format
    ensures DefaultTimestamp(NewInformation(level, message, fn, file, line, prefix, instance, now), later)
         == env.format(now, "yyyy/MM/dd HH:mm:ss.SSS z")
  {
  }

  /** The object name always ends with the function, and with an instance the type name and a ':' come first. */
  lemma ObjectNameEndsWithFunction(instance: Option<Instance>, fn: string)
    ensures |ObjectName(instance, fn)| >= |fn|
    ensures ObjectName(instance, fn)[|ObjectName(instance, fn)| - |fn|..] == fn
    ensures instance.Some? ==> ObjectName(instance, fn)[..|instance.value.typeName| + 1] == instance.value.typeName + ":"
  {
    if instance.Some? {
      var head := instance.value.typeName + ":";
      assert ObjectName(instance, fn) == head + fn;
    }
  }

  /**
   * For a function name without ':' (a `#function` of a property or of a method without
   * parameters), the object name has a ':' exactly when an instance is given.
   */
  lemma ColonMarksInstance(instance: Option<Instance>, fn: string)
    requires ':' !in fn
    ensures ':' in ObjectName(instance, fn) <==> instance.Some?
  {
    if instance.Some? {
      var head := instance.value.typeName + ":";
      assert ObjectName(instance, fn) == head + fn;
      assert ObjectName(instance, fn)[|head| - 1] == ':';
    }
  }

  /** `fileName` drops directories from a `#fileID`-style path. */
  lemma FileNameDropsDirectories(info: LogInformation, dir: string, name: string)
    requires '/' !in name && info.file == dir + "/" + name
    ensures FileName(info) == name
  {
    DirectoriesAreDropped(dir, name);
  }
}
