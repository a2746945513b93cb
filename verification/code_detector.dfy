/**
 * The code detector: a case-insensitive pattern searched line by line in
 * every source file of the tree, keeping the first match of each line.
 */
module CodeDetection {
  import opened Wrappers
  import opened Text
  import opened Regex
  import opened FileTree

  /** One `(path, line number, matched text)` record. */
  datatype CodeHit = CodeHit(path: string, line: nat, text: string)

  /** The suffixes of the files the detector reads. */
  const SourceSuffixes: seq<string> := [".py", ".js", ".ts", ".java", ".php", ".cs"]

  /** `fname.endswith(('.py', '.js', '.ts', '.java', '.php', '.cs'))`, case-sensitive. */
  predicate IsSourceFile(name: string) {
    exists i :: 0 <= i < |SourceSuffixes| && EndsWith(name, SourceSuffixes[i])
  }

  /** The records for the lines of one file: line `k` (1-based) gives one record when the pattern matches it. */
  function LineHits(e: Engine, r: Regex, path: string, lines: seq<string>): seq<CodeHit> {
    if lines == [] then []
    else
      var m := Search(e, r, lines[|lines| - 1]);
      LineHits(e, r, path, lines[..|lines| - 1]) + (if m.Some? then [CodeHit(path, |lines|, m.value.text)] else [])
  }

  /** A source file's records; a file that cannot be read gives none. */
  function FileHits(e: Engine, r: Regex, directory: string, step: Step, f: FileEntry): seq<CodeHit> {
    if !IsSourceFile(f.name) then []
    else match f.content
      case None => []
      case Some(text) => LineHits(e, r, FullPath(directory, step, f), Lines(text))
  }

  function StepHits(e: Engine, r: Regex, directory: string, step: Step, fs: seq<FileEntry>): seq<CodeHit> {
    if fs == [] then []
    else StepHits(e, r, directory, step, fs[..|fs| - 1]) + FileHits(e, r, directory, step, fs[|fs| - 1])
  }

  /** Every record of the walk, in walk order. */
  function TreeHits(e: Engine, r: Regex, directory: string, walk: seq<Step>): seq<CodeHit> {
    if walk == [] then []
    else
      var step := walk[|walk| - 1];
      TreeHits(e, r, directory, walk[..|walk| - 1]) + StepHits(e, r, directory, step, step.files)
  }

  function StepSourceCount(fs: seq<FileEntry>): nat {
    if fs == [] then 0
    else StepSourceCount(fs[..|fs| - 1]) + (if IsSourceFile(fs[|fs| - 1].name) then 1 else 0)
  }

  /** The number of source files in the walk, readable or not. */
  function SourceCount(walk: seq<Step>): nat {
    if walk == [] then 0
    else SourceCount(walk[..|walk| - 1]) + StepSourceCount(walk[|walk| - 1].files)
  }

  /** The distinct paths among the records. */
  function PathsOf(hits: seq<CodeHit>): set<string> {
    set i | 0 <= i < |hits| :: hits[i].path
  }

  class CodeDetector {
    const directory: string
    const pattern: Regex
    var matches: seq<CodeHit>

    /** The pattern is compiled with IGNORECASE; no record yet. */
    constructor (directory: string, pattern: string)
      ensures this.directory == directory && this.pattern == Regex(pattern, true) && matches == []
    {
      this.directory := directory;
      this.pattern := Regex(pattern, true);
      matches := [];
    }

    /** Scans one file's lines, appending the first match of each line. */
    method ScanLines(e: Engine, path: string, lines: seq<string>)
      modifies this
      ensures matches == old(matches) + LineHits(e, pattern, path, lines)
    {
      ghost var start := matches;
      for k := 0 to |lines|
        invariant matches == start + LineHits(e, pattern, path, lines[..k])
      {
        assert lines[..k + 1][..k] == lines[..k];
        var m := Search(e, pattern, lines[k]);
        if m.Some? {
          matches := matches + [CodeHit(path, k + 1, m.value.text)];
        }
      }
      assert lines[..|lines|] == lines;
    }

    /** The files of one directory of the walk. */
    method ScanStep(e: Engine, step: Step)
      modifies this
      ensures matches == old(matches) + StepHits(e, pattern, directory, step, step.files)
    {
      ghost var start := matches;
      for j := 0 to |step.files|
        invariant matches == start + StepHits(e, pattern, directory, step, step.files[..j])
      {
        var f := step.files[j];
        ghost var done := StepHits(e, pattern, directory, step, step.files[..j]);
        StepHitsSnoc(e, pattern, directory, step, j);
        if IsSourceFile(f.name) && f.content.Some? {
          ScanLines(e, FullPath(directory, step, f), Lines(f.content.value));
        }
        AppendAssoc(start, done, FileHits(e, pattern, directory, step, f));
      }
      assert step.files[..|step.files|] == step.files;
    }

    /**
     * `detect()`: the records are cleared first, so the result is the tree's
     * records whatever an earlier call left behind.
     */
    method Detect(walk: seq<Step>, e: Engine) returns (r: seq<CodeHit>)
      modifies this
      ensures matches == TreeHits(e, pattern, directory, walk)
      ensures r == matches
    {
      matches := [];
      for i := 0 to |walk|
        invariant matches == TreeHits(e, pattern, directory, walk[..i])
      {
        assert walk[..i + 1][..i] == walk[..i];
        ScanStep(e, walk[i]);
      }
      assert walk[..|walk|] == walk;
      r := matches;
    }

    /** `confidence()`: distinct matched files over source files, 0.0 when there are no source files. */
    method Confidence(walk: seq<Step>) returns (c: real)
      ensures c == if SourceCount(walk) > 0 then |PathsOf(matches)| as real / SourceCount(walk) as real else 0.0
    {
      var total := 0;
      for i := 0 to |walk|
        invariant total == SourceCount(walk[..i])
      {
        assert walk[..i + 1][..i] == walk[..i];
        var fs := walk[i].files;
        ghost var before := total;
        for j := 0 to |fs|
          invariant total == before + StepSourceCount(fs[..j])
        {
          assert fs[..j + 1][..j] == fs[..j];
          if IsSourceFile(fs[j].name) {
            total := total + 1;
          }
        }
        assert fs[..|fs|] == fs;
      }
      assert walk[..|walk|] == walk;
      var seen := PathsOf(matches);
      c := if total > 0 then |seen| as real / total as real else 0.0;
    }
  }

  /**
   * One unfolding of `StepHits` at a prefix of the directory's files; it
   * states nothing beyond the definition and exists so that `ScanStep`'s
   * loop need not unfold it itself.
   */
  lemma StepHitsSnoc(e: Engine, r: Regex, directory: string, step: Step, j: nat)
    requires j < |step.files|
    ensures StepHits(e, r, directory, step, step.files[..j + 1])
      == StepHits(e, r, directory, step, step.files[..j]) + FileHits(e, r, directory, step, step.files[j])
  {
    assert step.files[..j + 1][..j] == step.files[..j];
  }

  // ---------------------------------------------------------------- properties

  /**
   * Line `l` of a file has a record exactly when the pattern matches that
   * line, and the record holds the text of the line's first match.
   */
  lemma {:induction false} LineHitsIff(e: Engine, r: Regex, path: string, lines: seq<string>, h: CodeHit)
    ensures h in LineHits(e, r, path, lines) <==>
      h.path == path && 1 <= h.line <= |lines| && Search(e, r, lines[h.line - 1]).Some?
      && h.text == Search(e, r, lines[h.line - 1]).value.text
    decreases |lines|
  {
    if lines != [] {
      var init := lines[..|lines| - 1];
      LineHitsIff(e, r, path, init, h);
      if 1 <= h.line < |lines| {
        assert init[h.line - 1] == lines[h.line - 1];
      }
    }
  }

  predicate IncreasingLines(hs: seq<CodeHit>) {
    forall i, j :: 0 <= i < j < |hs| ==> hs[i].line < hs[j].line
  }

  /** At most one record per line: line numbers strictly increase along a file's records. */
  lemma {:induction false} LineHitsIncreasing(e: Engine, r: Regex, path: string, lines: seq<string>)
    ensures IncreasingLines(LineHits(e, r, path, lines))
    ensures forall h :: h in LineHits(e, r, path, lines) ==> 1 <= h.line <= |lines|
    decreases |lines|
  {
    if lines != [] {
      var init := lines[..|lines| - 1];
      LineHitsIncreasing(e, r, path, init);
      var hs := LineHits(e, r, path, lines);
      var prev := LineHits(e, r, path, init);
      var m := Search(e, r, lines[|lines| - 1]);
      assert hs == prev + (if m.Some? then [CodeHit(path, |lines|, m.value.text)] else []);
      forall i, j | 0 <= i < j < |hs| ensures hs[i].line < hs[j].line {
        assert hs[i] == prev[i];
        if j < |prev| {
          assert hs[j] == prev[j];
        } else {
          assert prev[i] in prev;
          assert hs[j].line == |lines|;
        }
      }
    }
  }

  /** The paths of the source files, one entry per file. */
  function StepSourcePaths(directory: string, step: Step, fs: seq<FileEntry>): (ps: seq<string>)
    ensures |ps| == StepSourceCount(fs)
  {
    if fs == [] then []
    else
      StepSourcePaths(directory, step, fs[..|fs| - 1])
      + (if IsSourceFile(fs[|fs| - 1].name) then [FullPath(directory, step, fs[|fs| - 1])] else [])
  }

  function SourcePaths(directory: string, walk: seq<Step>): (ps: seq<string>)
    ensures |ps| == SourceCount(walk)
  {
    if walk == [] then []
    else SourcePaths(directory, walk[..|walk| - 1]) + StepSourcePaths(directory, walk[|walk| - 1], walk[|walk| - 1].files)
  }

  lemma {:induction false} StepPathsCovered(e: Engine, r: Regex, directory: string, step: Step, fs: seq<FileEntry>, h: CodeHit)
    requires h in StepHits(e, r, directory, step, fs)
    ensures h.path in StepSourcePaths(directory, step, fs)
    decreases |fs|
  {
    var init := fs[..|fs| - 1];
    if h in StepHits(e, r, directory, step, init) {
      StepPathsCovered(e, r, directory, step, init, h);
    } else {
      var last := fs[|fs| - 1];
      LineHitsIff(e, r, FullPath(directory, step, last), Lines(last.content.value), h);
    }
  }

  /** Every record names a source file of the walk. */
  lemma {:induction false} TreePathsCovered(e: Engine, r: Regex, directory: string, walk: seq<Step>, h: CodeHit)
    requires h in TreeHits(e, r, directory, walk)
    ensures h.path in SourcePaths(directory, walk)
    decreases |walk|
  {
    var init := walk[..|walk| - 1];
    if h in TreeHits(e, r, directory, init) {
      TreePathsCovered(e, r, directory, init, h);
    } else {
      var step := walk[|walk| - 1];
      StepPathsCovered(e, r, directory, step, step.files, h);
    }
  }

  lemma {:induction false} SetOfSeqSize(s: seq<string>)
    ensures |set x | x in s| <= |s|
    decreases |s|
  {
    if s != [] {
      var init := s[..|s| - 1];
      SetOfSeqSize(init);
      assert (set x | x in s) == (set x | x in init) + {s[|s| - 1]};
    }
  }

  /** After `detect()`, the confidence lies in [0, 1]: no more files match than are scanned. */
  lemma DetectedPathsBounded(e: Engine, r: Regex, directory: string, walk: seq<Step>)
    ensures |PathsOf(TreeHits(e, r, directory, walk))| <= SourceCount(walk)
  {
    var hs := TreeHits(e, r, directory, walk);
    var sp := SourcePaths(directory, walk);
    forall p | p in PathsOf(hs) ensures p in sp {
      var i :| 0 <= i < |hs| && hs[i].path == p;
      TreePathsCovered(e, r, directory, walk, hs[i]);
    }
    SubsetSize(PathsOf(hs), set x | x in sp);
    SetOfSeqSize(sp);
  }

  lemma {:induction false} SubsetSize(a: set<string>, b: set<string>)
    requires a <= b
    ensures |a| <= |b|
    decreases |a|
  {
    if a != {} {
      var x :| x in a;
      SubsetSize(a - {x}, b - {x});
    }
  }

  // ---------------------------------------------------------------- every matching line is reported

  /**
   * `h` is the record of a matching line of `f`: a readable source file,
   * `h.line` a 1-based line of it on which the pattern has a first match,
   * whose text `h.text` holds.
   */
  predicate MatchingLine(e: Engine, r: Regex, directory: string, step: Step, f: FileEntry, h: CodeHit) {
    && IsSourceFile(f.name) && f.content.Some?
    && h.path == FullPath(directory, step, f)
    && 1 <= h.line <= |Lines(f.content.value)|
    && Search(e, r, Lines(f.content.value)[h.line - 1]).Some?
    && h.text == Search(e, r, Lines(f.content.value)[h.line - 1]).value.text
  }

  lemma FileHitsIff(e: Engine, r: Regex, directory: string, step: Step, f: FileEntry, h: CodeHit)
    ensures h in FileHits(e, r, directory, step, f) <==> MatchingLine(e, r, directory, step, f, h)
  {
    if IsSourceFile(f.name) && f.content.Some? {
      LineHitsIff(e, r, FullPath(directory, step, f), Lines(f.content.value), h);
    }
  }

  /** A record is among a directory's records exactly when it is the record of a matching line of one of its files. */
  lemma {:induction false} StepHitsIff(e: Engine, r: Regex, directory: string, step: Step, fs: seq<FileEntry>, h: CodeHit)
    ensures h in StepHits(e, r, directory, step, fs) <==>
      exists k :: 0 <= k < |fs| && MatchingLine(e, r, directory, step, fs[k], h)
    decreases |fs|
  {
    if fs != [] {
      var init := fs[..|fs| - 1];
      StepHitsIff(e, r, directory, step, init, h);
      FileHitsIff(e, r, directory, step, fs[|fs| - 1], h);
      if exists k :: 0 <= k < |fs| && MatchingLine(e, r, directory, step, fs[k], h) {
        var k :| 0 <= k < |fs| && MatchingLine(e, r, directory, step, fs[k], h);
        if k < |fs| - 1 { assert init[k] == fs[k]; }
      }
      if h in StepHits(e, r, directory, step, init) {
        var k :| 0 <= k < |init| && MatchingLine(e, r, directory, step, init[k], h);
        assert fs[k] == init[k];
      }
    }
  }

  /**
   * `detect()` reports exactly the matching lines of the walk: a record is
   * returned iff it names a readable source file of some directory, a line
   * of it the pattern matches, and that line's first match.
   */
  lemma {:induction false} TreeHitsIff(e: Engine, r: Regex, directory: string, walk: seq<Step>, h: CodeHit)
    ensures h in TreeHits(e, r, directory, walk) <==>
      exists i, k :: 0 <= i < |walk| && 0 <= k < |walk[i].files| && MatchingLine(e, r, directory, walk[i], walk[i].files[k], h)
    decreases |walk|
  {
    if walk != [] {
      var init := walk[..|walk| - 1];
      var step := walk[|walk| - 1];
      TreeHitsIff(e, r, directory, init, h);
      StepHitsIff(e, r, directory, step, step.files, h);
      if exists i, k :: 0 <= i < |walk| && 0 <= k < |walk[i].files| && MatchingLine(e, r, directory, walk[i], walk[i].files[k], h) {
        var i, k :| 0 <= i < |walk| && 0 <= k < |walk[i].files| && MatchingLine(e, r, directory, walk[i], walk[i].files[k], h);
        if i < |walk| - 1 { assert init[i] == walk[i]; }
      }
      if h in TreeHits(e, r, directory, init) {
        var i, k :| 0 <= i < |init| && 0 <= k < |init[i].files| && MatchingLine(e, r, directory, init[i], init[i].files[k], h);
        assert walk[i] == init[i];
      }
    }
  }

  /** Some line of a readable source file of the walk matches the pattern. */
  predicate AnyLineMatches(e: Engine, r: Regex, walk: seq<Step>) {
    exists i, k, l :: 0 <= i < |walk| && 0 <= k < |walk[i].files|
      && IsSourceFile(walk[i].files[k].name) && walk[i].files[k].content.Some?
      && 0 <= l < |Lines(walk[i].files[k].content.value)|
      && Search(e, r, Lines(walk[i].files[k].content.value)[l]).Some?
  }

  /** `detect()` returns some record exactly when some line of some readable source file matches. */
  lemma TreeHitsNonEmpty(e: Engine, r: Regex, directory: string, walk: seq<Step>)
    ensures TreeHits(e, r, directory, walk) != [] <==> AnyLineMatches(e, r, walk)
  {
    var hs := TreeHits(e, r, directory, walk);
    if hs != [] {
      TreeHitsIff(e, r, directory, walk, hs[0]);
      var i, k :| 0 <= i < |walk| && 0 <= k < |walk[i].files| && MatchingLine(e, r, directory, walk[i], walk[i].files[k], hs[0]);
      var ls := Lines(walk[i].files[k].content.value);
      assert Search(e, r, ls[hs[0].line - 1]).Some?;
    }
    if AnyLineMatches(e, r, walk) {
      var i, k, l :| 0 <= i < |walk| && 0 <= k < |walk[i].files|
        && IsSourceFile(walk[i].files[k].name) && walk[i].files[k].content.Some?
        && 0 <= l < |Lines(walk[i].files[k].content.value)|
        && Search(e, r, Lines(walk[i].files[k].content.value)[l]).Some?;
      var f := walk[i].files[k];
      var h := CodeHit(FullPath(directory, walk[i], f), l + 1, Search(e, r, Lines(f.content.value)[l]).value.text);
      assert MatchingLine(e, r, directory, walk[i], f, h);
      TreeHitsIff(e, r, directory, walk, h);
    }
  }
}
