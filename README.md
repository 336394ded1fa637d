# BwLogger in Dafny

A model of the logging library's cores, with proofs about them. There are three generations of the
logger in the repository, and their types clash (each declares its own `Logger`, `Level`,
`PrintLogger` and `OsLogger`).

- **Sources/Logger** has two designs. `LoggerCore` (module `LoggerCore`) takes every formatting
  decision from a per-level `LoggerDependency` policy and builds its line one segment at a time.
  The other design is a `Logger` with an optional level list and an `isDisabled` toggle (module
  `ContextLogger`). That `Logger` hands a `LogContext` (module `LoggerContext`) to a print sink
  (`PrintSink`) or an `os_log` sink (`OsLogSink`).
- **Sources/BwLogger/Core** is a logger with a single output (`BwCoreLogger`). Its record
  carries an optional instance (`BwCoreInformation`). Its formatting defaults are in
  `BwCoreOutput`, and its print, console, `os.Logger` and file outputs are in `BwCoreSinks`.
- **Sources/BwLogger (top level)** is a logger with many outputs (`BwLogger`). Its record
  computes its `objectName` up front (`BwInformation`). The protocol defaults
  (`BwOutput`) come in two versions, and there are console, example and native outputs
  (`BwSinks`).

These modules are shared by all generations:
- `Optional`: the option type.
- `StringEmpty`: the `String`/`Optional<String>` emptiness helpers.
- `LevelFilter`: the two ways the source writes the allow-list test.
- `Text`: spacers, repeated spaces, decimal rendering of `Int`.
- `Runtime`: what Foundation and the runtime supply, such as thread naming, `String(describing:)`,
  `lastPathComponent`, the first `.`-component and the `os.Logger` method names.
- `Effects`: a trace that records what the loggers do to the world.

There is no I/O here. A `print`, an `os_log`/`os.Logger` call, an `assert`/`assertionFailure`
or a file operation appends an event to an `Effects.Trace`. A method's postcondition states
exactly which events it appends.

The sink protocols are open: a caller may plug in its own `LoggerDependency` or `LogOutput`. Each
sink type therefore has a `Custom(id)` case besides the built-in sinks
(`ContextLogger.Dependency`, `BwCoreSinks.Output`, `BwSinks.Output`). What such a sink does with
what it receives is its own business, so its emission is a `Received(id, record)` event that carries
the record unchanged. The fan-out and forwarding facts therefore hold for caller-supplied sinks too.

Several things are inputs, not computed:
- the clock (`Date()` and its formatting)
- the current thread
- the type name and description of an instance
- `#available(iOS 14.0, *)`
- `#if DEBUG`
- the decoded text of `decodeJsonData`

Where the source is ambiguous or does not compile, the model follows the code as closely as it
can:
- `generateMessage` in Sources/BwLogger/Core/LogOutput.swift reads an optional `prefix` and an
  `objectName`. The Core `LogInformation` has neither: its prefix is a plain `String`, and it
  offers `methodName`. The model uses the record's prefix, which is always present, and
  `methodName` (`BwCoreOutput.GenerateMessage`).
- Sources/BwLogger/LogOutput.swift and Sources/BwLogger/Output/LogOutput+Ext.swift declare the
  same protocol defaults with different level tables. Both are modelled
  (`BwOutput.GenerateMessage`, `BwOutput.HashGenerateMessage`).
- The three helper files declare the same `entered`/`deinit` members. They become distinct
  methods: `Entered`/`Deinit` for Logger+Ext.swift, `LevelEntered`/`LevelDeinit`/`LevelJson` for
  Logger+ExtLevel.swift, and `ExtraEntered`/`ExtraDeinit`/`ExtraJson` for Logger+ExtraLevel.swift.
- Logger+ExtLevel.swift calls `log(with:)`, which no `Logger` declares. The model treats it as
  `log(_:)`.
- `LogInformation` is declared twice at the top level: in Sources/BwLogger/Logger.swift:104-165,
  with a message-first initialiser, and in Sources/BwLogger/LogInformation.swift. Both
  initialisers build the same record (`BwInformation.NewInformation`).
- Top-level Output/OsLogger.swift calls the Core helpers `prefix(for:)` and `addBlankBefore` on
  top-level records. The model uses the Core table. For `OSLogger`, `prefix(with:)` is taken
  from Sources/BwLogger/LogOutput.swift.
- Sources/BwLogger/Output/Logger+print.swift:25-26 and Output/Logger+File.swift:30-31 call
  `addSpacer(" ", before:)`, but Sources/BwLogger/Core/LogInformation.swift:83 declares only
  `addSpacer(_:to:)`. The model reads both calls as that helper (`Text.AddSpacer`).
- The top-level `Level` enum has the same cases and raw values as the Core one, so
  `BwInformation.Level` is a synonym for `BwCoreInformation.Level`.
- The source has several quirks, and the model keeps each as written:
  - Sources/Logger/Logger+os_log.swift:23 puts the debug message straight after the thread
    bracket, with no spacer.
  - The top-level non-info lines end in "file: line)", with an unbalanced parenthesis.
  - The Core `OsLogger` initialiser ignores its subsystem and category
    (Sources/BwLogger/Output/Logger+oslog.swift:20).
  - `buildMessage` in Sources/Logger/LogContext.swift always uses `methodName(.normal)` and the
    `.full` timestamp.

## Model

| member | source | states |
|---|---|---|
| StringEmpty.IsNotEmpty | Sources/BwTips/String+Empty.swift:12-14 | `isNotEmpty` holds exactly when the string has a character, i.e. it is `!isEmpty` |
| StringEmpty.OptionalIsEmpty | Sources/BwTips/String+Empty.swift:18-26 | `isEmpty` is always the complement of `isNotEmpty`; on `some(s)` it is `s.isEmpty` |
| StringEmpty.OptionalIsNotEmpty | Sources/BwTips/String+Empty.swift:28-36 | `isNotEmpty` implies a present, non-empty string |
| StringEmpty.NoneIsEmpty | Sources/BwLogger/Extension/String+Empty.swift:25-36 | `none` is empty and not non-empty |
| StringEmpty.SomeFollowsWrapped | Sources/BwLogger/Extension/String+Empty.swift:20-38 | on `some(s)`, `isEmpty` is `s.isEmpty` and `isNotEmpty` is its negation |
| LevelFilter.ContainsOrNil | Sources/Logger/Logger.swift:63-67 | the one-expression filter agrees with the two-guard filter on every list and level |
| LevelFilter.GuardEnabled | Sources/BwLogger/Logger.swift:45-53 | no list enables every level; a list enables exactly its members |
| LevelFilter.NilEnablesAll | Sources/Logger/LoggerCore.swift:123 | a nil list lets every level through, in both forms |
| LevelFilter.EmptyDisablesAll | Sources/BwLogger/Core/Logger.swift:57-62 | an empty list blocks every level, in both forms |
| Text.AddSpacer | Sources/Logger/LogContext.swift:116-120 | "" for an empty string, spacer + string otherwise (also `addSpacer`/`addBlankBefore`/`addSeparater` of the BwLogger generations) |
| Text.Spaces | Sources/Logger/LoggerCore.swift:170-173 | exactly `shifter` spaces when it is positive, none otherwise |
| Text.Digits | Sources/Logger/LoggerCore.swift:236 | the decimal digits of a natural number: non-empty and made of digits only; `Text.DigitsValue` reads them back as the number |
| Text.IntText | Sources/Logger/LoggerCore.swift:236 | the interpolated `Int`: non-empty, an optional '-' followed by digits, no '-' for a non-negative value; `Text.IntTextValue` reads it back as the `Int` |
| Text.DigitsValue | Sources/Logger/LoggerCore.swift:236 | the digits written for n denote n (most significant digit first) |
| Text.IntTextValue | Sources/Logger/LoggerCore.swift:236 | the text written for any `Int`, negative or not, is a signed numeral that denotes that `Int` |
| Text.IsDecimal | Sources/Logger/LoggerCore.swift:236 | definition: every character is a decimal digit |
| Text.IsNumeral | Sources/Logger/LoggerCore.swift:236 | definition: every character is '-' or a decimal digit |
| Text.DecimalValue | Sources/Logger/LoggerCore.swift:236 | definition: the natural number a digit string denotes, most significant digit first |
| Text.IsSignedDecimal | Sources/Logger/LoggerCore.swift:236 | definition: a digit string, optionally preceded by one '-' |
| Text.IntValue | Sources/Logger/LoggerCore.swift:236 | definition: the integer a signed digit string denotes (negated after a leading '-') |
| Runtime.ThreadName | Sources/Logger/LogContext.swift:69-85 | "main" on the main thread, else the non-empty thread name, else the non-empty queue label, else the description; it can only be empty through the description |
| Runtime.Coerce | Sources/Logger/LogContext.swift:58 | a `String` message is kept unchanged, anything else becomes its description |
| Runtime.LastPathComponent | Sources/Logger/LogContext.swift:91 | the file name holds no '/', is no longer than the path and is preceded by '/' when shorter |
| Runtime.LastPathComponentIsSuffix | Sources/Logger/LogContext.swift:112 | the file name is the tail of the path |
| Runtime.UpToFirstDot | Sources/Logger/LogContext.swift:94 | the first `.`-component is a prefix without '.', followed by '.' when shorter |
| Runtime.StopsAtFirstDot | Sources/Logger/LogContext.swift:94 | "base.rest" gives "base" whenever base has no '.' |
| Runtime.PlainFileNameIsKept | Sources/Logger/LogContext.swift:112 | a path without '/' is its own last component |
| Runtime.DirectoriesAreDropped | Sources/BwLogger/Core/LogInformation.swift:67-69 | "dir/name" gives "name" for every directory part |
| Runtime.CategoryName | Sources/BwLogger/Output/Logger+oslog.swift:29-48 | definition: the `os.Logger` method a category is written with: log, debug, info, warning, error, fault |
| LoggerCore.DefaultDependency | Sources/Logger/LoggerCore.swift:29-94 | the default dependency enables every level exactly in a debug build and uses " --" for both separators |
| LoggerCore.LogEvents | Sources/Logger/LoggerCore.swift:116-131 | nothing happens iff the dependency or the list rejects the level; otherwise one `dep.log` with the formatted line and raw message, then on `.fatal` one assertion with the same line |
| LoggerCore.LoggerCore.constructor | Sources/Logger/LoggerCore.swift:147-154 | stores the level list and installs the default dependency |
| LoggerCore.LoggerCore.Formatter | Sources/Logger/LoggerCore.swift:168-240 | the line built by successive appends equals the segment-order specification: spaces, prefix, timestamp, thread, message, call site, post-message, file:line |
| LoggerCore.LoggerCore.Log | Sources/Logger/LoggerCore.swift:116-131 | appends exactly the events of `LogEvents` and nothing else |
| LoggerCore.LoggerCore.Debug | Sources/Logger/LoggerCore.swift:290-292 | logs at `.debug` with no post-message and no shift |
| LoggerCore.LoggerCore.Info | Sources/Logger/LoggerCore.swift:294-296 | logs at `.info` with no post-message and no shift |
| LoggerCore.LoggerCore.Warn | Sources/Logger/LoggerCore.swift:298-300 | logs at `.warn` with no post-message and no shift |
| LoggerCore.LoggerCore.Error | Sources/Logger/LoggerCore.swift:302-304 | logs at `.error` with no post-message and no shift |
| LoggerCore.LoggerCore.Fatal | Sources/Logger/LoggerCore.swift:306-308 | logs at `.fatal`, so a passing call also asserts |
| LoggerCore.LoggerCore.Entered | Sources/Logger/LoggerCore.swift:314-316 | logs at `.enter` with an empty message and the user's text as post-message |
| LoggerCore.LoggerCore.Exit | Sources/Logger/LoggerCore.swift:318-320 | logs at `.exit` with an empty message and the user's text as post-message |
| LoggerCore.LoggerCore.Dispose | Sources/Logger/LoggerCore.swift:326-328 | prints "❎ " and the object's type name, unfiltered |
| LoggerCore.EmptyMessageUsesNoSeparator | Sources/Logger/LoggerCore.swift:200-209 | with an empty message the line does not depend on `sepalator()` at all |
| LoggerCore.EmptyMessageNameSegment | Sources/Logger/LoggerCore.swift:212-222 | with an empty message the call-site segment is a bare space and the label |
| LoggerCore.EmptyInstanceUsesFileName | Sources/Logger/LoggerCore.swift:203-216 | an instance describing as "" is labelled "<last path component>:<function>" under `.normal` and `.detail` |
| LoggerCore.DefaultPostSegment | Sources/Logger/LoggerCore.swift:229-232 | by default the post-message segment is " -- " and the text, or nothing |
| LoggerCore.DefaultPolicy | Sources/Logger/LoggerCore.swift:33-81 | the default dependency answers each policy question from its table |
| LoggerCore.DefaultInfoLine | Sources/Logger/LoggerCore.swift:52-81 | a default info line has a millisecond stamp and no thread, call site or file:line |
| LoggerCore.DefaultEnterExitLine | Sources/Logger/LoggerCore.swift:52-81 | a default enter/exit line has no stamp and no file:line, shows the thread and the `.normal` label |
| LoggerCore.DefaultDiagnosticLine | Sources/Logger/LoggerCore.swift:52-81 | default debug/warn/error/fatal lines carry every segment with a millisecond stamp and the `.detail` label |
| LoggerCore.DefaultEnteredLine | Sources/Logger/LoggerCore.swift:314-316 | `entered` under the defaults puts the user's text after the label, with no separator before the label |
| LoggerCore.DefaultPreFixDistinct | Sources/Logger/LoggerCore.swift:33-44 | the default prefixes tell the levels apart |
| LoggerCore.DefaultPreFix | Sources/Logger/LoggerCore.swift:33-44 | definition: the default prefix table: ➡️ enter, ⬅️ exit, 🔹 info, 🔸 debug, ⚠️ warn, ❌ error, 🔥 fatal |
| LoggerCore.DefaultDateType | Sources/Logger/LoggerCore.swift:52-59 | definition: no timestamp for enter/exit, milliseconds for every other level |
| LoggerCore.DefaultThreadName | Sources/Logger/LoggerCore.swift:60-65 | definition: the thread is shown for every level except info |
| LoggerCore.DefaultClassAndMethodName | Sources/Logger/LoggerCore.swift:66-72 | definition: `.normal` for enter/exit, `.none` for info, `.detail` otherwise |
| LoggerCore.DefaultFileAndLineNumber | Sources/Logger/LoggerCore.swift:74-81 | definition: file:line is appended for every level except enter, exit and info |
| LoggerCore.DateSegment | Sources/Logger/LoggerCore.swift:177-184 | definition: nothing, " [" + seconds stamp + "]" or " [" + milliseconds stamp + "]" by the date type |
| LoggerCore.ThreadSegment | Sources/Logger/LoggerCore.swift:187-199 | definition: " [" + resolved thread name + "]" when the level shows the thread, else nothing |
| LoggerCore.CallSite | Sources/Logger/LoggerCore.swift:212-227 | definition: file name + ":" + function for an instance describing as "", else type name or description + ":" + function by the description type |
| LoggerCore.NameSegment | Sources/Logger/LoggerCore.swift:200-227 | definition: the separator (only after a non-empty message), a space and the call site, when the level has a description type |
| LoggerCore.PostSegment | Sources/Logger/LoggerCore.swift:229-232 | definition: `sepalator2()` + " " + post-message when that is non-empty, else nothing |
| LoggerCore.FileLineSegment | Sources/Logger/LoggerCore.swift:235-237 | definition: " " + file name + ":" + line when the level asks for it, else nothing |
| LoggerCore.Format | Sources/Logger/LoggerCore.swift:168-240 | definition: the formatter line as the concatenation of spaces, prefix, date, thread, message, call-site, post-message and file:line segments |
| LoggerContext.Style | Sources/Logger/LogContext.swift:19-32 | the date format of each kind; only `.none` is empty |
| LoggerContext.NewContext | Sources/Logger/LogContext.swift:48-63 | stores every field unchanged and the message coerced to a string |
| LoggerContext.MethodName | Sources/Logger/LogContext.swift:87-109 | "" for `.none`; "<file base name>:<function>" for an instance describing as ""; else type name or description and the function |
| LoggerContext.MessageBetweenHeadAndTrailer | Sources/Logger/LogContext.swift:128-139 | every template but trace and deinit is head + optional " msg" + " -- " + trailer, and head and trailer do not depend on the message |
| LoggerContext.TraceLine | Sources/Logger/LogContext.swift:126-127 | the trace line is the method name, followed by " -- msg" only when there is a message |
| LoggerContext.DeinitIgnoresMessage | Sources/Logger/LogContext.swift:140-141 | the deinit line is "[ts] " + method name, whatever the message |
| LoggerContext.ThreadOnlyInDiagnosticLines | Sources/Logger/LogContext.swift:125-142 | trace, info, notice and deinit lines do not depend on the thread |
| LoggerContext.FileBaseNameLabel | Sources/Logger/LogContext.swift:91-95 | "dir/base.ext" labels as "base:<function>" under both description kinds |
| LoggerContext.PlainFileBaseNameLabel | Sources/Logger/LogContext.swift:91-95 | a bare "base.ext" labels as "base:<function>" |
| LoggerContext.WidgetRender | Sources/Logger/LogContext.swift:91-95 | "Widget.swift" and "render" give "Widget:render" |
| LoggerContext.LineInfoDropsDirectories | Sources/Logger/LogContext.swift:111-114 | `lineInfo()` is "<file name>:<line>" whatever the directories |
| LoggerContext.Timestamp | Sources/Logger/LogContext.swift:65-67 | definition: the environment's clock rendered in the style of the timestamp type |
| LoggerContext.LineInfo | Sources/Logger/LogContext.swift:111-114 | definition: last path component of the file + ":" + line |
| LoggerContext.StampHead | Sources/Logger/LogContext.swift:129-139 | definition: "[" + full timestamp + "]" |
| LoggerContext.ThreadPart | Sources/Logger/LogContext.swift:129-139 | definition: " [" + thread name + "]" |
| LoggerContext.Head | Sources/Logger/LogContext.swift:129-139 | definition: the stamp, followed by the thread part for debug, warning, error and fatal |
| LoggerContext.Trailer | Sources/Logger/LogContext.swift:129-139 | definition: line info for info, method name + " " + line info for the other stamped levels |
| LoggerContext.BuildMessage | Sources/Logger/LogContext.swift:122-144 | definition: the per-level line: method name and " -- " message for trace, "[stamp] " + method name for deinit, head + spaced message + " -- " + trailer otherwise |
| PrintSink.PreFix | Sources/Logger/Logger+print.swift:13-24 | every prefix has at least two characters |
| PrintSink.LevelOfLine | Sources/Logger/Logger+print.swift:15-26 | a found level's prefix starts the line; none found means no prefix starts it |
| PrintSink.PreFixDetermines | Sources/Logger/Logger+print.swift:15-24 | a prefix that starts another level's line belongs to that level |
| PrintSink.PreFixDistinct | Sources/Logger/Logger+print.swift:15-24 | the eight prefixes are pairwise distinct |
| PrintSink.TracePreFixIsBare | Sources/Logger/Logger+print.swift:16 | the trace prefix is the arrow alone, with no bracket and no space |
| PrintSink.LevelOfPrintedLine | Sources/Logger/Logger+print.swift:26 | the level can be read back from every printed line |
| PrintSink.Log | Sources/Logger/Logger+print.swift:12-28 | prints prefix + `buildMessage()` exactly once |
| PrintSink.PrintedLine | Sources/Logger/Logger+print.swift:26 | definition: the level's prefix followed by `buildMessage()` |
| OsLogSink.OsLineShape | Sources/Logger/Logger+os_log.swift:22-35 | each non-trace line is head + message (spaced except on debug) + " -- " + line info |
| OsLogSink.TraceLineMatchesPrint | Sources/Logger/Logger+os_log.swift:21 | the trace line is the printed trace line with a space after the arrow |
| OsLogSink.OsLineIgnoresClock | Sources/Logger/Logger+os_log.swift:19-36 | no `os_log` line depends on the clock |
| OsLogSink.OsLineThreadOnlyInDiagnostics | Sources/Logger/Logger+os_log.swift:19-36 | trace, info, notice and deinit lines do not depend on the thread |
| OsLogSink.Log | Sources/Logger/Logger+os_log.swift:17-39 | builds the level's template and emits it once |
| OsLogSink.OsHead | Sources/Logger/Logger+os_log.swift:23-35 | definition: the per-level mark before a non-trace message ("❎ DEINIT" for deinit), with " [thread]" for debug, warning, error and fatal |
| OsLogSink.OsLine | Sources/Logger/Logger+os_log.swift:19-36 | definition: the os_log line per level: "➡️ " + method name + " -- " message for trace; otherwise the head, the message (unspaced for debug), " -- " and the line info |
| ContextLogger.Emission | Sources/Logger/Logger.swift:69-76 | each dependency emits exactly one event: the printed line, the `os_log` line, or, for a caller-supplied dependency, the context itself as received |
| ContextLogger.LevelCall | Sources/Logger/Logger.swift:112-176 | a per-level call emits nothing iff its level is filtered out, else the emission of the context built at that level |
| ContextLogger.Logger.constructor | Sources/Logger/Logger.swift:21-30 | a fresh logger prints, has no list, is not disabled and enables every level |
| ContextLogger.Logger.WithDependency | Sources/Logger/Logger.swift:32-34 | stores the dependency, with no list |
| ContextLogger.Logger.SetDependency | Sources/Logger/Logger.swift:36-39 | replaces the dependency only and returns itself |
| ContextLogger.Logger.SetLevel | Sources/Logger/Logger.swift:41-44 | replaces the list only and returns itself |
| ContextLogger.Logger.IsDisabled | Sources/Logger/Logger.swift:47-52 | disabled iff the list is present and empty, iff no level is enabled |
| ContextLogger.Logger.SetIsDisabled | Sources/Logger/Logger.swift:53-60 | `true` installs the empty list, `false` removes it; reading back gives the value set and every level follows it |
| ContextLogger.Logger.IsEnabled | Sources/Logger/Logger.swift:63-67 | enabled iff there is no list or the level is in it |
| ContextLogger.Logger.Log | Sources/Logger/Logger.swift:69-76 | forwards the context to the dependency exactly once |
| ContextLogger.Logger.Entered | Sources/Logger/Logger.swift:113-119 | logs at `.trace`, nothing when it is filtered |
| ContextLogger.Logger.Info | Sources/Logger/Logger.swift:121-127 | logs at `.info`, nothing when it is filtered |
| ContextLogger.Logger.Debug | Sources/Logger/Logger.swift:129-135 | logs at `.debug`, nothing when it is filtered |
| ContextLogger.Logger.Notice | Sources/Logger/Logger.swift:137-143 | logs at `.notice`, nothing when it is filtered |
| ContextLogger.Logger.Warning | Sources/Logger/Logger.swift:145-151 | logs at `.warning`, nothing when it is filtered |
| ContextLogger.Logger.Error | Sources/Logger/Logger.swift:153-159 | logs at `.error`, nothing when it is filtered |
| ContextLogger.Logger.Fatal | Sources/Logger/Logger.swift:161-167 | logs at `.fatal`, nothing when it is filtered |
| ContextLogger.Logger.Deinit | Sources/Logger/Logger.swift:169-175 | logs at `.deinit`, nothing when it is filtered |
| BwCoreInformation.RawValue | Sources/BwLogger/Core/Logger.swift:20-27 | every level's raw value is a non-empty name |
| BwCoreInformation.NewInformation | Sources/BwLogger/Core/LogInformation.swift:33-45 | stores level, prefix, instance, function, file, line and the creation date unchanged, and the message coerced |
| BwCoreInformation.MethodName | Sources/BwLogger/Core/LogInformation.swift:73-81 | the bare function without an instance, "<type name>:<function>" with one |
| BwCoreInformation.TimestampIsCaptureTime | Sources/BwLogger/Core/LogInformation.swift:40-50 | the timestamp formats the date captured at creation in the default format |
| BwCoreInformation.MethodNameEndsWithFunction | Sources/BwLogger/Core/LogInformation.swift:73-81 | the method name always ends with the function name |
| BwCoreInformation.Timestamp | Sources/BwLogger/Core/LogInformation.swift:48-50 | definition: the capture date formatted with the default format |
| BwCoreInformation.FileName | Sources/BwLogger/Core/LogInformation.swift:67-69 | definition: last path component of the file |
| BwCoreOutput.GenerateMessage | Sources/BwLogger/Core/LogOutput.swift:36-48 | info records use the info template, every other level the timed one |
| BwCoreOutput.InfoLineIgnoresEnvironment | Sources/BwLogger/Core/LogOutput.swift:45-46 | info lines depend on neither clock nor thread |
| BwCoreOutput.DetailedLineStartsWithTimestamp | Sources/BwLogger/Core/LogOutput.swift:47 | a non-info line starts with prefix + " [ts]" |
| BwCoreOutput.PrefixForDistinct | Sources/BwLogger/Core/LogOutput.swift:25-34 | `prefix(for:)` tells the levels apart |
| BwCoreOutput.PrefixFor | Sources/BwLogger/Core/LogOutput.swift:25-34 | definition: the level table: "", 🛠DEBUG, 🔵INFOM, ⚠️WARNG, 🔥ERROR, 🔥🔥🔥🔥 |
| BwCoreOutput.InfoMessage | Sources/BwLogger/Core/LogOutput.swift:45-46 | definition: prefix + spaced message + " [" + method name + "]" |
| BwCoreOutput.Trailer | Sources/BwLogger/Core/LogOutput.swift:47 | definition: " [thread] [method name] " + file name + ": " + line + ")" |
| BwCoreOutput.DetailedMessage | Sources/BwLogger/Core/LogOutput.swift:47 | definition: prefix + " [" + timestamp + "]" + spaced message + trailer |
| BwCoreSinks.Separator | Sources/BwLogger/Output/Logger+print.swift:22 | " --" iff the message is non-empty, "" iff it is empty |
| BwCoreSinks.Route | Sources/BwLogger/Output/Logger+oslog.swift:29-48 | each level goes to the `os.Logger` method of the same name |
| BwCoreSinks.Emission | Sources/BwLogger/Output/Logger+File.swift:26-36 | print and console outputs print their own template once; the file output does open, write of the line, close; the `os.Logger` output goes native or legacy by availability; a caller-supplied output receives the record unchanged |
| BwCoreSinks.SeparatedInfoLine | Sources/BwLogger/Output/Logger+print.swift:24-25 | an info line is prefix + " " + method name without a message, prefix + " msg --" + " " + method name with one |
| BwCoreSinks.ConsoleKeepsSeparator | Sources/BwLogger/Output/Logger+Console.swift:22-24 | the console info line keeps " -- " and file:line with no method name, unlike the print line |
| BwCoreSinks.PrintLog | Sources/BwLogger/Output/Logger+print.swift:16-29 | prints the separated line once |
| BwCoreSinks.ConsoleLog | Sources/BwLogger/Output/Logger+Console.swift:16-27 | prints the console line once |
| BwCoreSinks.OsLog | Sources/BwLogger/Output/Logger+oslog.swift:22-52 | emits the line once, to the same-named category or through `os_log` |
| BwCoreSinks.FileLog | Sources/BwLogger/Output/Logger+File.swift:26-36 | calls open, write with the line, close on the dependency, in that order |
| BwCoreSinks.Log | Sources/BwLogger/Core/Logger.swift:13-15 | each output does exactly its emission |
| BwCoreSinks.SeparatedLine | Sources/BwLogger/Output/Logger+print.swift:22-26 | definition: the print/os/file template: prefix, stamp and thread off info, spaced message, " --" after a non-empty message, method name, file:line off info |
| BwCoreSinks.ConsoleLine | Sources/BwLogger/Output/Logger+Console.swift:22-24 | definition: the console template: always " -- "; info ends in file:line, others in method name and file:line + ")" |
| BwCoreLogger.GatedCall | Sources/BwLogger/Core/Logger.swift:64-110 | a filtered level emits nothing; otherwise the output's emission of the record built with the given level and prefix |
| BwCoreLogger.Logger.constructor | Sources/BwLogger/Core/Logger.swift:38-40 | stores the output, with no list, so every level is enabled |
| BwCoreLogger.Logger.SetLevel | Sources/BwLogger/Core/Logger.swift:43-46 | replaces the list, leaves the output, returns itself |
| BwCoreLogger.Logger.Log | Sources/BwLogger/Core/Logger.swift:50-52 | forwards the record to the output once, unfiltered |
| BwCoreLogger.Logger.IsEnabled | Sources/BwLogger/Core/Logger.swift:57-62 | enabled iff there is no list or the level is in it |
| BwCoreLogger.Logger.LogMessage | Sources/BwLogger/Core/Logger.swift:65-70 | a `.log` record with prefix "", nothing when `.log` is filtered |
| BwCoreLogger.Logger.Info | Sources/BwLogger/Core/Logger.swift:73-78 | an `.info` record with prefix "🔵", nothing when filtered |
| BwCoreLogger.Logger.Debug | Sources/BwLogger/Core/Logger.swift:81-86 | a `.debug` record with prefix "🛠", nothing when filtered |
| BwCoreLogger.Logger.Warning | Sources/BwLogger/Core/Logger.swift:89-94 | a `.warning` record with prefix "⚠️", nothing when filtered |
| BwCoreLogger.Logger.Error | Sources/BwLogger/Core/Logger.swift:97-102 | an `.error` record with prefix "🚫", nothing when filtered |
| BwCoreLogger.Logger.Fault | Sources/BwLogger/Core/Logger.swift:105-110 | a `.fault` record with prefix "🔥", nothing when filtered |
| BwCoreLogger.Logger.Entered | Sources/BwLogger/Core/LogExtraInformation.swift:30-38 | gated on `.log`; a `.log` record with prefix "➡️" and the instance |
| BwCoreLogger.Logger.Deinit | Sources/BwLogger/Core/LogExtraInformation.swift:41-46 | gated on `.log`; a `.log` record with prefix "❎" and the instance |
| BwCoreLogger.DefaultInstanceNamesString | Sources/BwLogger/Core/LogExtraInformation.swift:30 | the default instance `""` names the call "String:<function>" |
| BwCoreLogger.StringMessage | Sources/BwLogger/Core/LogExtraInformation.swift:22 | a `String` message as it is; an absent or non-`String` one as "" |
| BwCoreLogger.Description | Sources/BwLogger/Core/LogExtraInformation.swift:21-23 | the prefix or "", then exactly one space, then the `String` message or "": stated piece by piece, with the total length |
| BwCoreLogger.DescriptionDetermines | Sources/BwLogger/Core/LogExtraInformation.swift:21-23 | for prefixes without spaces, equal descriptions mean equal prefixes and equal `String` messages: the description can be read back |
| BwCoreLogger.EmptyExtraIsOneSpace | Sources/BwLogger/Core/LogExtraInformation.swift:22 | two absent fields describe as a single space |
| BwInformation.ObjectName | Sources/BwLogger/LogInformation.swift:43-47 | "<type name>:<function>" with an instance, the function without one |
| BwInformation.NewInformation | Sources/BwLogger/LogInformation.swift:31-48 | stores level, prefix, function, file, line and the creation date unchanged, the message coerced and the object name |
| BwInformation.TimestampIsCaptureTime | Sources/BwLogger/LogInformation.swift:51-53 | formatting later, in any environment with the same formatter, gives the creation instant |
| BwInformation.ObjectNameEndsWithFunction | Sources/BwLogger/LogInformation.swift:43-47 | for every function name, the object name ends with the function, and with an instance it starts with the type name and ':' |
| BwInformation.ColonMarksInstance | Sources/BwLogger/LogInformation.swift:43-47 | only for function names without ':' (properties, methods without parameters): the object name has a ':' exactly when there is an instance |
| BwInformation.FileNameDropsDirectories | Sources/BwLogger/LogInformation.swift:70-72 | `fileName` is the last path component |
| BwInformation.Timestamp | Sources/BwLogger/LogInformation.swift:51-53 | definition: the capture date formatted with the given format |
| BwInformation.DefaultTimestamp | Sources/BwLogger/LogInformation.swift:51-53 | definition: the capture date formatted with the default format |
| BwInformation.ThreadName | Sources/BwLogger/LogInformation.swift:56-67 | definition: the calling thread's resolved name |
| BwInformation.FileName | Sources/BwLogger/LogInformation.swift:70-72 | definition: last path component of the file |
| BwOutput.PrefixWith | Sources/BwLogger/LogOutput.swift:28-41 | a record prefix is used when present, the level table otherwise |
| BwOutput.TimedMessage | Sources/BwLogger/LogOutput.swift:43-48 | info records use the info template, others the timed template |
| BwOutput.UntimedMessage | Sources/BwLogger/Output/ExampleLogger.swift:14-20 | info records use the info template, others the untimed template |
| BwOutput.DefaultsAgreeOnRecordPrefix | Sources/BwLogger/Output/LogOutput+Ext.swift:20-22 | with a record prefix both protocol defaults write the same line |
| BwOutput.DefaultsDifferWithoutRecordPrefix | Sources/BwLogger/Output/LogOutput+Ext.swift:24-31 | without one they differ for every level but `.log` |
| BwOutput.RecordPrefixWins | Sources/BwLogger/LogOutput.swift:29-31 | a record prefix, even "", overrides any table |
| BwOutput.TablesDifferBeyondLog | Sources/BwLogger/LogOutput.swift:33-40 | the emoji and "#" tables agree only on `.log` |
| BwOutput.HashPrefixDistinct | Sources/BwLogger/Output/LogOutput+Ext.swift:24-31 | the "#" table tells the levels apart |
| BwOutput.InfoLineIgnoresEnvironment | Sources/BwLogger/LogOutput.swift:45-46 | info lines depend on neither clock nor thread, timed or untimed |
| BwOutput.TimedIsUntimedWithTimestamp | Sources/BwLogger/LogOutput.swift:46-47 | a timed line is the untimed line with " [ts]" inserted after the prefix |
| BwOutput.EmptyInfoLine | Sources/BwLogger/LogOutput.swift:46 | with no message, the info line is prefix + " [objectName]" |
| BwOutput.LevelPrefix | Sources/BwLogger/LogOutput.swift:33-40 | definition: the emoji level table, the same as the core table |
| BwOutput.HashPrefix | Sources/BwLogger/Output/LogOutput+Ext.swift:24-31 | definition: the "#" level table: "", #DEBG, #INFO, #WARN, #🔥, #🔥🔥 |
| BwOutput.InfoLine | Sources/BwLogger/LogOutput.swift:46 | definition: prefix + spaced message + " [" + object name + "]" |
| BwOutput.Trailer | Sources/BwLogger/LogOutput.swift:47 | definition: " [thread] [object name] " + file name + ": " + line + ")" |
| BwOutput.TimedLine | Sources/BwLogger/LogOutput.swift:47 | definition: prefix + " [" + default timestamp + "]" + spaced message + trailer |
| BwOutput.UntimedLine | Sources/BwLogger/Output/ExampleLogger.swift:19 | definition: prefix + spaced message + trailer |
| BwOutput.GenerateMessage | Sources/BwLogger/LogOutput.swift:43-48 | definition: the timed message under the record prefix or the emoji table |
| BwOutput.HashGenerateMessage | Sources/BwLogger/Output/LogOutput+Ext.swift:34-39 | definition: the timed message under the record prefix or the "#" table |
| BwSinks.ExamplePrefix | Sources/BwLogger/Output/ExampleLogger.swift:34-40 | "🔹 " followed by the level's raw name |
| BwSinks.HandleFor | Sources/BwLogger/Output/OSLogger.swift:58-62 | the default native logger iff subsystem and category are both empty |
| BwSinks.Alert | Sources/BwLogger/Output/ConsoleLogger.swift:18-26 | a fault raises an assertion with the line, every other level prints it |
| BwSinks.Native | Sources/BwLogger/Output/OsLogger.swift:52-78 | the same-named native category on the chosen handle when available, `os_log` otherwise |
| BwSinks.Emission | Sources/BwLogger/Output/OSLogger.swift:53-86 | each output emits exactly one event: console and example alert with their own lines, native outputs log natively, a caller-supplied output receives the record unchanged |
| BwSinks.ConsoleLog | Sources/BwLogger/Output/ConsoleLogger.swift:18-26 | generates the console line once and prints or asserts |
| BwSinks.ExampleLog | Sources/BwLogger/Output/ExampleLogger.swift:24-32 | generates the example line once and prints or asserts |
| BwSinks.NativeLogCall | Sources/BwLogger/Output/OsLogger.swift:52-78 | generates the line once and routes each level to its category |
| BwSinks.Log | Sources/BwLogger/Logger.swift:171-173 | each output does exactly its emission |
| BwSinks.ConsoleIsTimedExampleIsNot | Sources/BwLogger/Output/ConsoleLogger.swift:43-48 | for a non-info record with a prefix, the console line is the example line with " [ts]" after the prefix; example and native lines are the untimed line |
| BwSinks.NativeOutputsAgree | Sources/BwLogger/Output/OSLogger.swift:43-49 | both native outputs emit the same event for the same record |
| BwSinks.OutputTablesDiffer | Sources/BwLogger/Output/ConsoleLogger.swift:33-40 | the console, "#", emoji and example tables differ beyond `.log` |
| BwSinks.DefaultNativeOutputsUseSubsystem | Sources/BwLogger/Output/OsLogger.swift:47-50 | the argument-less native outputs use their named subsystem, never the default logger |
| BwSinks.ConsolePrefix | Sources/BwLogger/Output/ConsoleLogger.swift:28-41 | definition: the console table: "", #DEBUG, #INFOM, #WARNG, #ERROR, #🔥 |
| BwSinks.ConsoleMessage | Sources/BwLogger/Output/ConsoleLogger.swift:43-48 | definition: the timed message under the record prefix or the console table |
| BwSinks.ExampleMessage | Sources/BwLogger/Output/ExampleLogger.swift:14-20 | definition: the untimed message under the record prefix or the example table |
| BwSinks.NativeMessage | Sources/BwLogger/Output/OsLogger.swift:80-92 | definition: the untimed message under the record prefix or the emoji table |
| BwLogger.FanOut | Sources/BwLogger/Logger.swift:88-90 | one event per output |
| BwLogger.FanOutInOrder | Sources/BwLogger/Logger.swift:88-90 | the k-th event is output k's emission of the same record: every output once, in list order |
| BwLogger.FanOutAppend | Sources/BwLogger/Logger.swift:88-90 | fanning out to a + b is fanning out to a, then to b |
| BwLogger.Dispatch | Sources/BwLogger/Logger.swift:85-91 | a filtered level emits nothing; otherwise one event per output |
| BwLogger.Logger.constructor | Sources/BwLogger/Logger.swift:57-60 | stores the outputs and the given list |
| BwLogger.Logger.WithOutputs | Sources/BwLogger/Logger.swift:57-60 | the default `nil` list replaces the field's `[]`, so every level is enabled |
| BwLogger.Logger.IsEnabled | Sources/BwLogger/Logger.swift:45-53 | enabled iff there is no list or the level is in it |
| BwLogger.Logger.SetOutput | Sources/BwLogger/Logger.swift:64-70 | replaces the outputs only and returns itself |
| BwLogger.Logger.SetLogOutput | Sources/BwLogger/Logger.swift:94-96 | the same as `setOutput` |
| BwLogger.Logger.SetLevel | Sources/BwLogger/Logger.swift:76-83 | replaces the list only (`nil` allowed) and returns itself |
| BwLogger.Logger.Log | Sources/BwLogger/Logger.swift:85-91 | nothing for a filtered level; otherwise hands the same record to every output in list order |
| BwLogger.Logger.LogMessage | Sources/BwLogger/Logger.swift:181-183 | dispatches a `.log` record without prefix |
| BwLogger.Logger.Info | Sources/BwLogger/Logger.swift:186-188 | dispatches an `.info` record without prefix |
| BwLogger.Logger.Debug | Sources/BwLogger/Logger.swift:191-193 | dispatches a `.debug` record without prefix |
| BwLogger.Logger.Warning | Sources/BwLogger/Logger.swift:196-198 | dispatches a `.warning` record without prefix |
| BwLogger.Logger.Error | Sources/BwLogger/Logger.swift:201-203 | dispatches an `.error` record without prefix |
| BwLogger.Logger.Fault | Sources/BwLogger/Logger.swift:206-208 | dispatches a `.fault` record without prefix |
| BwLogger.Logger.GatedHelper | Sources/BwLogger/Extension/Logger+ExtLevel.swift:13-32 | with `.log` disabled nothing changes; otherwise a `.log` record with the helper's prefix is dispatched |
| BwLogger.Logger.Entered | Sources/BwLogger/Extension/Logger+Ext.swift:85-92 | gated; a `.log` record with prefix "➡️" |
| BwLogger.Logger.Deinit | Sources/BwLogger/Extension/Logger+Ext.swift:95-99 | gated; a `.log` record with prefix "❎" |
| BwLogger.Logger.LevelEntered | Sources/BwLogger/Extension/Logger+ExtLevel.swift:13-17 | gated; prefix "➡️ENTER" |
| BwLogger.Logger.LevelDeinit | Sources/BwLogger/Extension/Logger+ExtLevel.swift:20-24 | gated; prefix "❎DEINIT" |
| BwLogger.Logger.LevelJson | Sources/BwLogger/Extension/Logger+ExtLevel.swift:26-32 | gated; the decoded text with prefix "🌍JSON" |
| BwLogger.Logger.ExtraEntered | Sources/BwLogger/Extra/Logger+ExtraLevel.swift:13-15 | ungated; prefix "#ENTER", filtered by `log(_:)` only |
| BwLogger.Logger.ExtraDeinit | Sources/BwLogger/Extra/Logger+ExtraLevel.swift:18-20 | ungated; prefix "#DE-INITED" |
| BwLogger.Logger.ExtraJson | Sources/BwLogger/Extra/Logger+ExtraLevel.swift:22-26 | ungated; the decoded text with prefix "#JSON" |
| BwLogger.EnabledReachesEveryOutput | Sources/BwLogger/Logger.swift:85-91 | when the level passes the list, output k, built-in or caller-supplied, receives the same record as the k-th event |
| BwLogger.HelperGateIsRedundant | Sources/BwLogger/Extra/Logger+ExtraLevel.swift:13-26 | for every level list, checking `.log` before dispatching a `.log` record gives exactly what dispatching it unchecked gives, in both the open and the closed case |
| BwLogger.Description | Sources/BwLogger/Extension/Logger+Ext.swift:78-80 | the prefix or "", exactly one space, then the `String` message or "", stated piece by piece: the same text as the Core description |
| BwLogger.DescriptionIgnoresFunction | Sources/BwLogger/Extension/Logger+Ext.swift:67-80 | the stored function does not take part in the description |

## Left out

- Concurrency: every `DispatchSemaphore` wait/signal is left out, and each critical section is one atomic method body.
- Clock and date formatting: `Date()`, `DateFormatter` and the files Sources/BwLogger/Extension/DateFormatter+Ext.swift, Sources/BwTips/Date+Ext.swift, Sources/BwTips/DateFormatter+Ext.swift and Sources/BwLogger/Core/LoggerExtension.swift are not part of this model. The rendered date is an input (`Clock`, `render`, `format`).
- Runtime introspection: `Thread`, the dispatch queue label, `String(describing:)`, `type(of:)` and `#function`/`#file`/`#line` are inputs.
- Runtime.LastPathComponent: does not model Foundation's path normalisation (resolving relative paths, stripping a trailing '/'); it is the text after the last '/'.
- Native logging: `os.Logger`/`os_log` emission is an event carrying the category and text. The `SystemLogger` pass-through in Sources/Logger/Logger+oslog.swift is not part of this model.
- `#available(iOS 14.0, *)` and `#if DEBUG` become the inputs `modernOsLog` and `debugBuild`.
- `assert`/`assertionFailure` become trace events, not halts.
- The default `LoggerDependency.log` print (Sources/Logger/LoggerCore.swift:30-32) is recorded as the `DependencyLog` event it receives, not as a separate print.
- Global instances (`log`, `Logger.default`) are not modelled; they are single constructor calls.
- LoggerCore's `LogHandler` conformance (Sources/Logger/LoggerCore.swift:98-102, 133-145) does not compile and is not modelled.
- File I/O: Sources/BwLogger/Output/FileHandler.swift, both FileLogger.swift files, Sources/Logger/LoggerCore+Filer.swift and the dependency filers are not part of this model. The Core `FileLogger` is kept with its dependency as an event trace.
- The keychain toggle (Sources/BwLogger/Output/Logger+Keychain.swift) depends on code not in the repository. Sources/Logger/LoggerExtension.swift is commented out.
- JSON, geometry and URL formatting (`decodeJsonData`, `point2String`, `frame2String`, `url2String`) are not modelled; the `json` helpers take the decoded text as an input.
- `Codable` conformance of the records is not modelled.
- UI, examples, the test smoke files and package wiring are not part of this model.
