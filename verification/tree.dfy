/**
 * The scanned directory tree, as `os.walk` presents it: a sequence of steps,
 * one per directory visited, each with the files found there. A file whose
 * content is `None` cannot be opened or read.
 */
module FileTree {
  import opened Wrappers
  import Text

  datatype FileEntry = FileEntry(name: string, content: Option<string>)

  /** One `(root, dirs, files)` triple; `sub` is the directory relative to the top ("" for the top itself). */
  datatype Step = Step(sub: string, files: seq<FileEntry>)

  /** `os.path.join(a, b)` for POSIX paths. */
  function Join(a: string, b: string): string {
    if |b| > 0 && b[0] == '/' then b
    else if a == "" || a[|a| - 1] == '/' then a + b
    else a + "/" + b
  }

  /** The `root` that `os.walk(directory)` reports for a step. */
  function Root(directory: string, step: Step): string {
    if step.sub == "" then directory else Join(directory, step.sub)
  }

  /** `os.path.join(root, fname)` */
  function FullPath(directory: string, step: Step, f: FileEntry): string {
    Join(Root(directory, step), f.name)
  }

  /** `os.path.relpath(os.path.join(root, fname), directory)` for a file the walk found. */
  function RelPath(step: Step, f: FileEntry): string {
    Join(step.sub, f.name)
  }

  /** Position of the last `c` in `s`. */
  function LastIndexOf(s: string, c: char): (r: Option<nat>)
    ensures r.Some? ==> r.value < |s| && s[r.value] == c
    ensures r.None? ==> forall i :: 0 <= i < |s| ==> s[i] != c
  {
    if s == [] then None
    else if s[|s| - 1] == c then Some(|s| - 1)
    else LastIndexOf(s[..|s| - 1], c)
  }

  predicate AllDots(s: string) {
    forall i :: 0 <= i < |s| ==> s[i] == '.'
  }

  /**
   * `os.path.splitext(name)[1]` for a base name: from the last '.' on, unless
   * only dots precede it (".env" and "..x" have no extension).
   */
  function Ext(name: string): (e: string)
    ensures e == "" || (e[0] == '.' && Text.EndsWith(name, e))
  {
    match LastIndexOf(name, '.')
    case None => ""
    case Some(d) => if AllDots(name[..d]) then "" else name[d..]
  }

  /** The first file of the walk whose full path is `p`. */
  function FindFile(directory: string, walk: seq<Step>, p: string): Option<FileEntry> {
    if walk == [] then None
    else match FindIn(directory, walk[0], walk[0].files, p)
      case Some(f) => Some(f)
      case None => FindFile(directory, walk[1..], p)
  }

  function FindIn(directory: string, step: Step, files: seq<FileEntry>, p: string): Option<FileEntry> {
    if files == [] then None
    else if FullPath(directory, step, files[0]) == p then Some(files[0])
    else FindIn(directory, step, files[1..], p)
  }

  /** `os.path.isfile(p)` */
  predicate IsFile(directory: string, walk: seq<Step>, p: string) {
    FindFile(directory, walk, p).Some?
  }

  /** `os.path.isdir(p)` */
  predicate IsDir(directory: string, walk: seq<Step>, p: string) {
    exists i :: 0 <= i < |walk| && Root(directory, walk[i]) == p
  }

  /** `os.path.exists(p)` */
  predicate Exists(directory: string, walk: seq<Step>, p: string) {
    IsFile(directory, walk, p) || IsDir(directory, walk, p)
  }

  /** `open(p).read()`: `None` when `p` is not a readable file. */
  function ReadFile(directory: string, walk: seq<Step>, p: string): Option<string> {
    match FindFile(directory, walk, p)
    case Some(f) => f.content
    case None => None
  }

  /** `os.path.basename(p)`: what follows the last '/'. */
  function Basename(p: string): (b: string)
    ensures Text.EndsWith(p, b)
  {
    match LastIndexOf(p, '/')
    case None => p
    case Some(i) => p[i + 1..]
  }

  /** The `(path, content)` pairs `read_files` yields for one directory: its readable files, in order. */
  function StepReads(directory: string, step: Step, fs: seq<FileEntry>): seq<(string, string)> {
    if fs == [] then []
    else
      var f := fs[|fs| - 1];
      StepReads(directory, step, fs[..|fs| - 1])
      + (if f.content.Some? then [(FullPath(directory, step, f), f.content.value)] else [])
  }

  /** `read_files(directory)`: every readable file of the walk with its content, in walk order. */
  function ReadFiles(directory: string, walk: seq<Step>): seq<(string, string)> {
    if walk == [] then []
    else
      var step := walk[|walk| - 1];
      ReadFiles(directory, walk[..|walk| - 1]) + StepReads(directory, step, step.files)
  }
}
