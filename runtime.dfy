/**
 * What the Swift runtime and Foundation supply to the logger. Thread introspection,
 * `String(describing:)` and `type(of:)` are inputs; `URL(fileURLWithPath:).lastPathComponent` and
 * `components(separatedBy: ".").first` are given their plain path and string meaning.
 */
module Runtime {
  import opened Optional
  import StringEmpty

  /**
   * The current thread as seen at the moment of a call: `Thread.isMainThread`, `Thread.current.name`,
   * the label of the current dispatch queue (`nil` when it is not valid UTF-8) and `Thread.current.description`.
   */
  datatype ThreadInfo = ThreadInfo(isMain: bool, name: Option<string>, queueLabel: Option<string>, description: string)

  /**
   * Thread-name resolution: "main" on the main thread, else the thread's non-empty name, else the
   * queue's non-empty label, else the thread's description.
   */
  function ThreadName(t: ThreadInfo): (r: string)
    ensures t.isMain ==> r == "main"
    ensures !t.isMain && StringEmpty.OptionalIsNotEmpty(t.name) ==> r == t.name.value
    ensures !t.isMain && !StringEmpty.OptionalIsNotEmpty(t.name) && StringEmpty.OptionalIsNotEmpty(t.queueLabel)
            ==> r == t.queueLabel.value
    ensures !t.isMain && StringEmpty.OptionalIsEmpty(t.name) && StringEmpty.OptionalIsEmpty(t.queueLabel)
            ==> r == t.description
    ensures r == [] ==> !t.isMain && r == t.description
  {
    if t.isMain then "main"
    else if t.name.Some? && StringEmpty.IsNotEmpty(t.name.value) then t.name.value
    else if t.queueLabel.Some? && StringEmpty.IsNotEmpty(t.queueLabel.value) then t.queueLabel.value
    else t.description
  }

  /**
   * A caller-supplied `instance: Any`: `String(describing: instance)` and
   * `String(describing: type(of: instance))`. The source's default instance `""` describes as ""
   * and has type name "String".
   */
  datatype Instance = Instance(description: string, typeName: string)

  const DefaultInstance: Instance := Instance("", "String")

  /** A caller-supplied `message: Any`: either a `String` or a value with a description. */
  datatype Value = Text(text: string) | Described(description: string)

  /** A `String` message as it is, any other value as its description. */
  function Coerce(v: Value): (r: string)
    ensures v.Text? ==> r == v.text
    ensures v.Described? ==> r == v.description
  {
    match v
    case Text(s) => s
    case Described(d) => d
  }

  /** The text after the last '/' of a path (the file's own name). */
  function LastPathComponent(path: string): (r: string)
    ensures |r| <= |path|
    ensures '/' !in r
    ensures |r| < |path| ==> path[|path| - |r| - 1] == '/'
    decreases |path|
  {
    if path == [] || path[|path| - 1] == '/' then []
    else LastPathComponent(path[..|path| - 1]) + [path[|path| - 1]]
  }

  /** The last path component is a suffix of the path. */
  lemma {:induction false} LastPathComponentIsSuffix(path: string)
    ensures LastPathComponent(path) == path[|path| - |LastPathComponent(path)|..]
    decreases |path|
  {
    if path != [] && path[|path| - 1] != '/' {
      var init := path[..|path| - 1];
      LastPathComponentIsSuffix(init);
      var r := LastPathComponent(init);
      assert init[|init| - |r|..] + [path[|path| - 1]] == path[|path| - |r| - 1..];
    }
  }

  /** `s.components(separatedBy: ".").first`: the text before the first '.'. */
  function UpToFirstDot(s: string): (r: string)
    ensures r <= s
    ensures '.' !in r
    ensures |r| < |s| ==> s[|r|] == '.'
    decreases |s|
  {
    if s == [] || s[0] == '.' then [] else [s[0]] + UpToFirstDot(s[1..])
  }

  /** Whatever follows the first '.', the text before it is what is kept. */
  lemma {:induction false} StopsAtFirstDot(base: string, rest: string)
    requires '.' !in base
    ensures UpToFirstDot(base + "." + rest) == base
    decreases |base|
  {
    var s := base + "." + rest;
    if base != [] {
      assert s[0] == base[0];
      assert s[1..] == base[1..] + "." + rest;
      StopsAtFirstDot(base[1..], rest);
      assert [base[0]] + base[1..] == base;
    } else {
      assert s[0] == '.';
    }
  }

  /** A path without '/' is its own last component. */
  lemma {:induction false} PlainFileNameIsKept(path: string)
    requires '/' !in path
    ensures LastPathComponent(path) == path
  {
    if path != [] {
      PlainFileNameIsKept(path[..|path| - 1]);
      assert path[..|path| - 1] + [path[|path| - 1]] == path;
    }
  }

  /** Whatever directories precede it, a file name is recovered from its path. */
  lemma {:induction false} DirectoriesAreDropped(dir: string, name: string)
    requires '/' !in name
    ensures LastPathComponent(dir + "/" + name) == name
  {
    var p := dir + "/" + name;
    if name == [] {
      assert p[|p| - 1] == '/';
    } else {
      var q := dir + "/" + name[..|name| - 1];
      assert p[..|p| - 1] == q;
      assert p[|p| - 1] == name[|name| - 1];
      DirectoriesAreDropped(dir, name[..|name| - 1]);
      assert name[..|name| - 1] + [name[|name| - 1]] == name;
    }
  }

  /** The native `os.Logger` entry points a level can be routed to. */
  datatype OsLogCategory = LogCategory | DebugCategory | InfoCategory | WarningCategory | ErrorCategory | FaultCategory

  /** The name of the `os.Logger` method each category stands for. */
  function CategoryName(c: OsLogCategory): string
  {
    match c
    case LogCategory => "log"
    case DebugCategory => "debug"
    case InfoCategory => "info"
    case WarningCategory => "warning"
    case ErrorCategory => "error"
    case FaultCategory => "fault"
  }
}
