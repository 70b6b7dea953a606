/** Values shared by every part of the pipeline model: optional values and results, the
    pipeline's exception classes, the outcome of an external tool, paths and the file system. */
module Common {

  datatype Option<T> = None | Some(value: T) {
    function GetOr(default: T): T {
      if Some? then value else default
    }
  }

  /** The exception classes of the pipeline (esm3_pipeline/exceptions.py) and the built-in
      exceptions that the core raises or lets through. */
  datatype ErrorKind =
    | ProtFlowError
    | ConfigurationError
    | DependencyError
    | ModelLoadError
    | PredictionError
    | PocketDetectionError
    | DockingError
    | LigandPreparationError
    | ParseError
    | AntiSMASHError
    | FileNotFound
    | ValueError
    | TypeError
    | KeyError
    | ImportError
    | OtherException
    | KeyboardInterrupt

  /** Every class above except the built-in ones derives from ProtFlowError. */
  predicate IsProtFlowError(e: ErrorKind) {
    !(e.FileNotFound? || e.ValueError? || e.TypeError? || e.KeyError? || e.ImportError? || e.OtherException? ||
      e.KeyboardInterrupt?)
  }

  datatype Result<T> = Ok(value: T) | Err(error: ErrorKind)

  /** How a subprocess call came back: an exit code, its timeout, or another exception
      (for example the executable could not be started). */
  datatype Exec = Exited(code: int) | TimedOut | Raised

  predicate Succeeded(e: Exec) {
    e.Exited? && e.code == 0
  }

  /** The position of the last `c` in `s`, or -1 (`str.rfind`). */
  function RFind(s: string, c: char): (i: int)
    ensures -1 <= i < |s|
    ensures i >= 0 ==> s[i] == c
    ensures forall k :: i < k < |s| ==> s[k] != c
  {
    LastBefore(s, c, |s|)
  }

  /** The position of the last `c` among the first `n` characters of `s`, or -1. */
  function LastBefore(s: string, c: char, n: nat): (i: int)
    requires n <= |s|
    ensures -1 <= i < n
    ensures i >= 0 ==> s[i] == c
    ensures forall k :: i < k < n ==> s[k] != c
  {
    if n == 0 then -1 else if s[n - 1] == c then n - 1 else LastBefore(s, c, n - 1)
  }

  /** Paths are their text, as `str(path)` gives it; `name`, `suffix`, `stem`, `parent` and
      `with_suffix` are read off that text the way `pathlib` does. */
  type Path = string

  /** `c` does not occur in `s`. */
  predicate Free(s: string, c: char) {
    forall k :: 0 <= k < |s| ==> s[k] != c
  }

  function Name(p: Path): string {
    p[RFind(p, '/') + 1..]
  }

  /** The directory part (`''` when the path has no `/`). */
  function Parent(p: Path): string {
    if RFind(p, '/') < 0 then "" else p[..RFind(p, '/')]
  }

  /** From the last dot of the name, unless that dot opens or ends the name. */
  function Suffix(p: Path): (r: string)
    ensures r == [] || (r[0] == '.' && 1 < |r| < |Name(p)|)
  {
    var n := Name(p);
    var i := RFind(n, '.');
    if 0 < i < |n| - 1 then n[i..] else ""
  }

  function Stem(p: Path): string {
    Name(p)[..|Name(p)| - |Suffix(p)|]
  }

  function WithSuffix(p: Path, s: string): Path {
    p[..|p| - |Suffix(p)|] + s
  }

  /** `dir / name`. */
  function Join(dir: Path, name: string): Path {
    dir + "/" + name
  }

  /** A file written into a directory lies in that directory under the name it was given. */
  lemma {:induction false} JoinParts(dir: Path, name: string)
    requires Free(name, '/')
    ensures Name(Join(dir, name)) == name
    ensures Parent(Join(dir, name)) == dir
  {
    var p := Join(dir, name);
    var i := RFind(p, '/');
    assert p[|dir|] == '/';
    assert forall k :: |dir| < k < |p| ==> p[k] == name[k - |dir| - 1];
    assert p[i + 1..] == name;
  }

  /** `RFind` pinned down by its defining facts. */
  lemma {:induction false} RFindAt(s: string, c: char, i: int)
    requires i == -1 || (0 <= i < |s| && s[i] == c)
    requires forall k :: i < k < |s| ==> s[k] != c
    ensures RFind(s, c) == i
  {
  }

  /** The files that exist, with their contents. */
  type FileSystem = map<Path, string>

  /** One run of an external tool: how it ended and the files it wrote. A tool may write
      files even when it fails, so the writes are applied whatever the outcome. */
  datatype ToolRun = ToolRun(exec: Exec, writes: FileSystem)

  /** An external program, seen from outside: given its argument list and the files present,
      how it ends and what it writes. */
  type Tool = (seq<string>, FileSystem) -> ToolRun

  function After(fs: FileSystem, run: ToolRun): (r: FileSystem)
    ensures r.Keys == fs.Keys + run.writes.Keys
    ensures forall p :: p in run.writes ==> r[p] == run.writes[p]
    ensures forall p :: p in fs && p !in run.writes ==> r[p] == fs[p]
  {
    fs + run.writes
  }
}
