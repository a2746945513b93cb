/**
 * The file detector: each config names files or directories, by a glob
 * pattern relative to the scanned directory or by a compiled pattern on file
 * names, optionally with a text the file must contain.
 */
module FileDetection {
  import opened Wrappers
  import opened Text
  import opened Regex
  import opened FileTree
  import opened Patterns

  /** `glob.glob(pattern, recursive=True)`: the paths the pattern expands to. */
  type Glob = string -> seq<string>

  /** One `(path, content_or_None)` record. */
  datatype FileHit = FileHit(path: string, content: Option<string>)

  /** The state of the records when `detect()` ends, and whether it ended by an exception. */
  datatype Scan = Scan(hits: seq<FileHit>, raised: bool)

  /** What `detect()` gives its caller: an exception, or `(found, matches)`. */
  datatype DetectResult = Raised | Returned(found: bool, hits: seq<FileHit>)

  /** What one candidate path does to the records. */
  datatype Verdict = Skip | Keep(hit: FileHit) | Fail

  /** `cfg.get('type', 'file')` */
  function ExpectedType(cfg: DetectorConfig): string {
    cfg.kind.GetOr("file")
  }

  /** The full paths of the walked files whose name the compiled pattern matches, in walk order. */
  function NameMatches(directory: string, walk: seq<Step>, e: Engine, r: Regex): seq<string> {
    if walk == [] then []
    else
      var step := walk[|walk| - 1];
      NameMatches(directory, walk[..|walk| - 1], e, r) + StepNameMatches(directory, step, step.files, e, r)
  }

  function StepNameMatches(directory: string, step: Step, fs: seq<FileEntry>, e: Engine, r: Regex): seq<string> {
    if fs == [] then []
    else
      var f := fs[|fs| - 1];
      StepNameMatches(directory, step, fs[..|fs| - 1], e, r)
      + (if Search(e, r, f.name).Some? then [FullPath(directory, step, f)] else [])
  }

  /**
   * The paths a config looks at: walked files whose name matches its
   * compiled pattern, or else what its `path` (default "") globs to under the
   * directory.
   */
  function Candidates(directory: string, walk: seq<Step>, e: Engine, glob: Glob, cfg: DetectorConfig): seq<string> {
    match cfg.pattern
    case Some(PatternCompiled(r)) => NameMatches(directory, walk, e, r)
    case _ => glob(Join(directory, cfg.path.GetOr("")))
  }

  /**
   * One candidate: a directory for a "dir" config; for a "file" config a
   * file, which with a `content` key is read (an unreadable file raises) and
   * kept only when it contains that text.
   */
  function Consider(directory: string, walk: seq<Step>, cfg: DetectorConfig, full: string): Verdict {
    var t := ExpectedType(cfg);
    if t == "dir" && IsDir(directory, walk, full) then Keep(FileHit(full, None))
    else if t == "file" && IsFile(directory, walk, full) then
      match cfg.content
      case None => Keep(FileHit(full, None))
      case Some(needle) =>
        match ReadFile(directory, walk, full)
        case None => Fail
        case Some(text) => if Contains(text, needle) then Keep(FileHit(full, Some(needle))) else Skip
    else Skip
  }

  /** The records after one more candidate; nothing happens after an exception. */
  function Take(s: Scan, directory: string, walk: seq<Step>, cfg: DetectorConfig, full: string): Scan {
    if s.raised then s
    else match Consider(directory, walk, cfg, full)
      case Skip => s
      case Keep(h) => Scan(s.hits + [h], false)
      case Fail => Scan(s.hits, true)
  }

  function Feed(s: Scan, directory: string, walk: seq<Step>, cfg: DetectorConfig, cands: seq<string>): Scan {
    if cands == [] then s
    else Take(Feed(s, directory, walk, cfg, cands[..|cands| - 1]), directory, walk, cfg, cands[|cands| - 1])
  }

  /** The records after the configs, in order, starting from none. */
  function FeedAll(directory: string, walk: seq<Step>, e: Engine, glob: Glob, cfgs: seq<DetectorConfig>): Scan {
    if cfgs == [] then Scan([], false)
    else
      var prev := FeedAll(directory, walk, e, glob, cfgs[..|cfgs| - 1]);
      var cfg := cfgs[|cfgs| - 1];
      Feed(prev, directory, walk, cfg, Candidates(directory, walk, e, glob, cfg))
  }

  /** Which `detect()` runs: the module as written, or the module with `re` imported. */
  datatype Variant = AsWritten | Corrected

  /**
   * What `detect()` gives its caller over the configs. As written, it raises
   * NameError on the first config; corrected, it raises when an unreadable
   * file must be searched and otherwise reports the records.
   */
  function Outcome(v: Variant, directory: string, walk: seq<Step>, e: Engine, glob: Glob, cfgs: seq<DetectorConfig>): DetectResult {
    match v
    case AsWritten => if cfgs == [] then Returned(false, []) else Raised
    case Corrected =>
      var s := FeedAll(directory, walk, e, glob, cfgs);
      if s.raised then Raised else Returned(s.hits != [], s.hits)
  }

  class FileDetector {
    const directory: string
    const configs: seq<DetectorConfig>
    var matches: seq<FileHit>

    constructor (directory: string, configs: seq<DetectorConfig>)
      ensures this.directory == directory && this.configs == configs && matches == []
    {
      this.directory := directory;
      this.configs := configs;
      matches := [];
    }

    /** The walk loop of the compiled-pattern branch: every walked file whose name the pattern matches. */
    static method MatchingFiles(directory: string, walk: seq<Step>, e: Engine, r: Regex) returns (cands: seq<string>)
      ensures cands == NameMatches(directory, walk, e, r)
    {
      cands := [];
      for i := 0 to |walk|
        invariant cands == NameMatches(directory, walk[..i], e, r)
      {
        assert walk[..i + 1][..i] == walk[..i];
        var step := walk[i];
        ghost var before := cands;
        for j := 0 to |step.files|
          invariant cands == before + StepNameMatches(directory, step, step.files[..j], e, r)
        {
          assert step.files[..j + 1][..j] == step.files[..j];
          var f := step.files[j];
          if Search(e, r, f.name).Some? {
            cands := cands + [FullPath(directory, step, f)];
          }
        }
        assert step.files[..|step.files|] == step.files;
      }
      assert walk[..|walk|] == walk;
    }

    /** The candidates of one config, stopping at the first exception. */
    method Offer(walk: seq<Step>, cfg: DetectorConfig, cands: seq<string>) returns (raised: bool)
      modifies this
      ensures Scan(matches, raised) == Feed(Scan(old(matches), false), directory, walk, cfg, cands)
    {
      ghost var s0 := Scan(matches, false);
      raised := false;
      var k := 0;
      while k < |cands| && !raised
        invariant 0 <= k <= |cands|
        invariant Scan(matches, raised) == Feed(s0, directory, walk, cfg, cands[..k])
      {
        assert cands[..k + 1][..k] == cands[..k];
        var full := cands[k];
        var t := ExpectedType(cfg);
        if t == "dir" && IsDir(directory, walk, full) {
          matches := matches + [FileHit(full, None)];
        } else if t == "file" && IsFile(directory, walk, full) {
          if cfg.content.Some? {
            var text := ReadFile(directory, walk, full);
            if text.None? {
              raised := true;
            } else if Contains(text.value, cfg.content.value) {
              matches := matches + [FileHit(full, cfg.content)];
            }
          } else {
            matches := matches + [FileHit(full, None)];
          }
        }
        k := k + 1;
      }
      FeedRaisedPrefix(s0, directory, walk, cfg, cands, k);
    }

    /**
     * `detect()` with `re` imported: the records are cleared, every config is
     * tried in order, and an unreadable file with a required content ends the
     * call with an exception.
     */
    method Detect(walk: seq<Step>, e: Engine, glob: Glob) returns (out: DetectResult)
      modifies this
      ensures Scan(matches, out.Raised?) == FeedAll(directory, walk, e, glob, configs)
      ensures out.Returned? ==> out.hits == matches && (out.found <==> matches != [])
      ensures out == Outcome(Corrected, directory, walk, e, glob, configs)
    {
      matches := [];
      var raised := false;
      var i := 0;
      while i < |configs| && !raised
        invariant 0 <= i <= |configs|
        invariant Scan(matches, raised) == FeedAll(directory, walk, e, glob, configs[..i])
      {
        assert configs[..i + 1][..i] == configs[..i];
        var cfg := configs[i];
        var cands: seq<string>;
        if cfg.pattern.Some? && cfg.pattern.value.PatternCompiled? {
          cands := MatchingFiles(directory, walk, e, cfg.pattern.value.regex);
        } else {
          cands := glob(Join(directory, cfg.path.GetOr("")));
        }
        raised := Offer(walk, cfg, cands);
        i := i + 1;
      }
      FeedAllRaisedPrefix(directory, walk, e, glob, configs, i);
      if raised {
        return Raised;
      }
      out := Returned(matches != [], matches);
    }

    /**
     * `detect()` as written: the module never imports `re`, so the test
     * `isinstance(cfg.get('pattern'), re.Pattern)` raises NameError on the
     * first config, after the records were cleared.
     */
    method DetectAsWritten(walk: seq<Step>, e: Engine, glob: Glob) returns (out: DetectResult)
      modifies this
      ensures matches == []
      ensures out.Raised? <==> configs != []
      ensures out.Returned? ==> !out.found && out.hits == []
      ensures out == Outcome(AsWritten, directory, walk, e, glob, configs)
    {
      matches := [];
      if |configs| > 0 {
        return Raised;
      }
      out := Returned(false, matches);
    }

    /** `confidence()`: records over configs, 0.0 without configs. */
    function Confidence(): (c: real)
      reads this
      ensures configs == [] ==> c == 0.0
      ensures configs != [] ==> c * |configs| as real == |matches| as real
    {
      if |configs| > 0 then |matches| as real / |configs| as real else 0.0
    }
  }

  // ---------------------------------------------------------------- once raised, nothing changes

  lemma {:induction false} FeedRaised(s: Scan, directory: string, walk: seq<Step>, cfg: DetectorConfig, cands: seq<string>)
    requires s.raised
    ensures Feed(s, directory, walk, cfg, cands) == s
    decreases |cands|
  {
    if cands != [] {
      FeedRaised(s, directory, walk, cfg, cands[..|cands| - 1]);
    }
  }

  lemma {:induction false} FeedAppend(s: Scan, directory: string, walk: seq<Step>, cfg: DetectorConfig, a: seq<string>, b: seq<string>)
    ensures Feed(s, directory, walk, cfg, a + b) == Feed(Feed(s, directory, walk, cfg, a), directory, walk, cfg, b)
    decreases |b|
  {
    if b == [] {
      assert a + b == a;
    } else {
      assert (a + b)[..|a + b| - 1] == a + b[..|b| - 1];
      FeedAppend(s, directory, walk, cfg, a, b[..|b| - 1]);
    }
  }

  lemma FeedRaisedPrefix(s: Scan, directory: string, walk: seq<Step>, cfg: DetectorConfig, cands: seq<string>, k: nat)
    requires k <= |cands|
    requires k < |cands| ==> Feed(s, directory, walk, cfg, cands[..k]).raised
    ensures Feed(s, directory, walk, cfg, cands) == Feed(s, directory, walk, cfg, cands[..k])
  {
    assert cands == cands[..k] + cands[k..];
    FeedAppend(s, directory, walk, cfg, cands[..k], cands[k..]);
    if k < |cands| {
      FeedRaised(Feed(s, directory, walk, cfg, cands[..k]), directory, walk, cfg, cands[k..]);
    }
  }

  lemma {:induction false} FeedAllRaisedPrefix(directory: string, walk: seq<Step>, e: Engine, glob: Glob, cfgs: seq<DetectorConfig>, k: nat)
    requires k <= |cfgs|
    requires k < |cfgs| ==> FeedAll(directory, walk, e, glob, cfgs[..k]).raised
    ensures FeedAll(directory, walk, e, glob, cfgs) == FeedAll(directory, walk, e, glob, cfgs[..k])
    decreases |cfgs|
  {
    if k < |cfgs| {
      var init := cfgs[..|cfgs| - 1];
      assert init[..k] == cfgs[..k];
      FeedAllRaisedPrefix(directory, walk, e, glob, init, k);
      var cfg := cfgs[|cfgs| - 1];
      FeedRaised(FeedAll(directory, walk, e, glob, init), directory, walk, cfg, Candidates(directory, walk, e, glob, cfg));
    } else {
      assert cfgs[..k] == cfgs;
    }
  }

  // ---------------------------------------------------------------- properties

  /** A "dir" config keeps a candidate exactly when it is a directory, whatever its `content` says, and never raises. */
  lemma DirConfig(directory: string, walk: seq<Step>, cfg: DetectorConfig, full: string)
    requires ExpectedType(cfg) == "dir"
    ensures Consider(directory, walk, cfg, full) != Fail
    ensures Consider(directory, walk, cfg, full) == Keep(FileHit(full, None)) <==> IsDir(directory, walk, full)
    ensures Consider(directory, walk, cfg, full) == Skip <==> !IsDir(directory, walk, full)
  {
  }

  /**
   * A "file" config keeps an existing file as `(path, None)` without a
   * `content` key, and with one as `(path, content)` exactly when the text
   * contains it, case-sensitively.
   */
  lemma FileConfig(directory: string, walk: seq<Step>, cfg: DetectorConfig, full: string)
    requires ExpectedType(cfg) == "file"
    ensures !IsFile(directory, walk, full) ==> Consider(directory, walk, cfg, full) == Skip
    ensures IsFile(directory, walk, full) && cfg.content.None? ==>
      Consider(directory, walk, cfg, full) == Keep(FileHit(full, None))
    ensures IsFile(directory, walk, full) && cfg.content.Some? && ReadFile(directory, walk, full).Some? ==>
      (Consider(directory, walk, cfg, full) == Keep(FileHit(full, cfg.content)) <==>
       Contains(ReadFile(directory, walk, full).value, cfg.content.value))
  {
  }

  /** A config without `type` behaves as a "file" config. */
  lemma MissingTypeIsFile(directory: string, walk: seq<Step>, cfg: DetectorConfig, full: string)
    requires cfg.kind.None?
    ensures Consider(directory, walk, cfg, full) == Consider(directory, walk, cfg.(kind := Some("file")), full)
  {
  }

  lemma {:induction false} FeedHits(s: Scan, directory: string, walk: seq<Step>, cfg: DetectorConfig, cands: seq<string>, h: FileHit)
    requires h in Feed(s, directory, walk, cfg, cands).hits
    ensures h in s.hits || exists k :: 0 <= k < |cands| && Consider(directory, walk, cfg, cands[k]) == Keep(h)
    decreases |cands|
  {
    if cands != [] {
      var init := cands[..|cands| - 1];
      var prev := Feed(s, directory, walk, cfg, init);
      if h in prev.hits {
        FeedHits(s, directory, walk, cfg, init, h);
        if !(h in s.hits) {
          var k :| 0 <= k < |init| && Consider(directory, walk, cfg, init[k]) == Keep(h);
          assert cands[k] == init[k];
        }
      }
    }
  }

  /** Every record is kept by some config for one of its candidates. */
  lemma {:induction false} FeedAllHits(directory: string, walk: seq<Step>, e: Engine, glob: Glob, cfgs: seq<DetectorConfig>, h: FileHit)
    requires h in FeedAll(directory, walk, e, glob, cfgs).hits
    ensures exists i, k | 0 <= i < |cfgs| && 0 <= k < |Candidates(directory, walk, e, glob, cfgs[i])| ::
              Consider(directory, walk, cfgs[i], Candidates(directory, walk, e, glob, cfgs[i])[k]) == Keep(h)
    decreases |cfgs|
  {
    var init := cfgs[..|cfgs| - 1];
    var cfg := cfgs[|cfgs| - 1];
    var prev := FeedAll(directory, walk, e, glob, init);
    FeedHits(prev, directory, walk, cfg, Candidates(directory, walk, e, glob, cfg), h);
    if h in prev.hits {
      FeedAllHits(directory, walk, e, glob, init, h);
      var i, k :| 0 <= i < |init| && 0 <= k < |Candidates(directory, walk, e, glob, init[i])|
        && Consider(directory, walk, init[i], Candidates(directory, walk, e, glob, init[i])[k]) == Keep(h);
      assert cfgs[i] == init[i];
    }
  }

  /** Records are only appended, and a run that ends without an exception keeps every candidate its config keeps. */
  lemma {:induction false} FeedKeeps(s: Scan, directory: string, walk: seq<Step>, cfg: DetectorConfig, cands: seq<string>)
    ensures s.hits <= Feed(s, directory, walk, cfg, cands).hits
    ensures !Feed(s, directory, walk, cfg, cands).raised ==> !s.raised
    ensures !Feed(s, directory, walk, cfg, cands).raised ==>
      forall k :: 0 <= k < |cands| && Consider(directory, walk, cfg, cands[k]).Keep? ==>
        Consider(directory, walk, cfg, cands[k]).hit in Feed(s, directory, walk, cfg, cands).hits
    decreases |cands|
  {
    if cands != [] {
      var init := cands[..|cands| - 1];
      FeedKeeps(s, directory, walk, cfg, init);
      var prev := Feed(s, directory, walk, cfg, init);
      var last := Feed(s, directory, walk, cfg, cands);
      assert prev.hits <= last.hits;
      if !last.raised {
        forall k | 0 <= k < |cands| && Consider(directory, walk, cfg, cands[k]).Keep?
          ensures Consider(directory, walk, cfg, cands[k]).hit in last.hits
        {
          if k < |init| {
            assert init[k] == cands[k];
            assert Consider(directory, walk, cfg, init[k]).hit in prev.hits;
          }
        }
      }
    }
  }

  /** Every candidate a config keeps is recorded, unless the run raised. */
  lemma {:induction false} FeedAllKeeps(directory: string, walk: seq<Step>, e: Engine, glob: Glob, cfgs: seq<DetectorConfig>, i: nat, k: nat)
    requires !FeedAll(directory, walk, e, glob, cfgs).raised
    requires i < |cfgs| && k < |Candidates(directory, walk, e, glob, cfgs[i])|
    requires Consider(directory, walk, cfgs[i], Candidates(directory, walk, e, glob, cfgs[i])[k]).Keep?
    ensures Consider(directory, walk, cfgs[i], Candidates(directory, walk, e, glob, cfgs[i])[k]).hit in FeedAll(directory, walk, e, glob, cfgs).hits
    decreases |cfgs|
  {
    var init := cfgs[..|cfgs| - 1];
    var cfg := cfgs[|cfgs| - 1];
    var prev := FeedAll(directory, walk, e, glob, init);
    FeedKeeps(prev, directory, walk, cfg, Candidates(directory, walk, e, glob, cfg));
    if i < |init| {
      assert init[i] == cfgs[i];
      FeedAllKeeps(directory, walk, e, glob, init, i, k);
    }
  }

  /** Some config keeps some candidate. */
  predicate AnyKept(directory: string, walk: seq<Step>, e: Engine, glob: Glob, cfgs: seq<DetectorConfig>) {
    exists i, k | 0 <= i < |cfgs| && 0 <= k < |Candidates(directory, walk, e, glob, cfgs[i])| ::
      Consider(directory, walk, cfgs[i], Candidates(directory, walk, e, glob, cfgs[i])[k]).Keep?
  }

  /** When the corrected `detect()` returns, it reports found exactly when some config keeps some candidate. */
  lemma FoundIff(directory: string, walk: seq<Step>, e: Engine, glob: Glob, cfgs: seq<DetectorConfig>)
    ensures Outcome(Corrected, directory, walk, e, glob, cfgs).Returned? ==>
      (Outcome(Corrected, directory, walk, e, glob, cfgs).found <==> AnyKept(directory, walk, e, glob, cfgs))
  {
    var s := FeedAll(directory, walk, e, glob, cfgs);
    if !s.raised {
      if s.hits != [] {
        FeedAllHits(directory, walk, e, glob, cfgs, s.hits[0]);
      }
      if AnyKept(directory, walk, e, glob, cfgs) {
        var i, k :| 0 <= i < |cfgs| && 0 <= k < |Candidates(directory, walk, e, glob, cfgs[i])|
          && Consider(directory, walk, cfgs[i], Candidates(directory, walk, e, glob, cfgs[i])[k]).Keep?;
        FeedAllKeeps(directory, walk, e, glob, cfgs, i, k);
      }
    }
  }

  /**
   * The confidence is not bounded by 1: one glob config that matches two
   * files gives two records, so records over configs is 2.0.
   */
  lemma ConfidenceAboveOne()
    ensures var walk := [Step("", [FileEntry("a.csproj", Some("")), FileEntry("b.csproj", Some(""))])];
      var glob: Glob := _ => ["d/a.csproj", "d/b.csproj"];
      var s := FeedAll("d", walk, (_, _) => [], glob, [FileCfg("*.csproj")]);
      !s.raised && |s.hits| == 2
  {
    var walk := [Step("", [FileEntry("a.csproj", Some("")), FileEntry("b.csproj", Some(""))])];
    var glob: Glob := _ => ["d/a.csproj", "d/b.csproj"];
    var cfg := FileCfg("*.csproj");
    var cands := ["d/a.csproj", "d/b.csproj"];
    assert Candidates("d", walk, (_, _) => [], glob, cfg) == cands;
    assert FullPath("d", walk[0], walk[0].files[0]) == "d/a.csproj";
    assert FullPath("d", walk[0], walk[0].files[1]) == "d/b.csproj";
    assert FindIn("d", walk[0], walk[0].files, "d/a.csproj").Some?;
    assert FindIn("d", walk[0], walk[0].files[1..], "d/b.csproj").Some?;
    assert IsFile("d", walk, "d/a.csproj");
    assert IsFile("d", walk, "d/b.csproj");
    assert [cfg][..0] == [];
    assert cands[..1][..0] == [];
    assert cands[..1] == ["d/a.csproj"];
    assert Feed(Scan([], false), "d", walk, cfg, cands[..1]) == Scan([FileHit("d/a.csproj", None)], false);
  }
}
