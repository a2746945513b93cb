/**
 * The endpoint and AJAX extractor. It walks the tree, skips ignored files and
 * files whose extension maps to no active language, runs that language's
 * endpoint patterns and the AJAX pattern over each remaining file, and
 * returns the endpoint records sorted by (file, line) and the distinct AJAX
 * records sorted as tuples.
 */
module EndpointDetection {
  import opened Wrappers
  import opened Text
  import opened Regex
  import opened FileTree
  import opened Patterns
  import opened EndpointRecords

  /** EXTENSION_LANG_MAP */
  const ExtensionLangMap: seq<(string, string)> := [
    (".js", "JavaScript"),
    (".jsx", "JavaScript"),
    (".ts", "TypeScript"),
    (".tsx", "TypeScript"),
    (".py", "Python"),
    (".rb", "Ruby"),
    (".php", "PHP"),
    (".go", "Go"),
    (".java", "Java"),
    (".kt", "Kotlin")
  ]

  /** The languages a file extension can map to. */
  const MappedLanguages: set<string> := {"JavaScript", "TypeScript", "Python", "Ruby", "PHP", "Go", "Java", "Kotlin"}

  /** Some pattern of the list matches somewhere in `s`. */
  function AnyHit(e: Engine, pats: seq<Regex>, s: string): (b: bool)
    ensures b <==> exists i :: 0 <= i < |pats| && Search(e, pats[i], s).Some?
  {
    if pats == [] then false
    else Search(e, pats[0], s).Some? || AnyHit(e, pats[1..], s)
  }

  /** `text[:start].count('\n') + 1`: the 1-based line a match starts on. */
  function LineOf(text: string, start: nat): nat {
    CountChar(Prefix(text, start), '\n') + 1
  }

  // ---------------------------------------------------------------- what one file yields

  /**
   * The text and language of a file the scan reads, `None` for a file it
   * skips: an ignored path, an extension outside the map, an unreadable file
   * or a language that is not active.
   */
  function Admit(e: Engine, directory: string, langs: seq<string>, step: Step, f: FileEntry): Option<(string, string)> {
    if AnyHit(e, IgnorePatterns, FullPath(directory, step, f)) then None
    else match Lookup(ExtensionLangMap, Lower(Ext(f.name)))
      case None => None
      case Some(lang) =>
        match f.content
        case None => None
        case Some(text) => if lang in langs then Some((text, lang)) else None
  }

  /**
   * The record for one match: the upper-cased first group as method when the
   * pattern has two groups and "ALL" otherwise, and the last group as route.
   */
  function Record(rel: string, text: string, p: EndpointPattern, m: Match): Endpoint {
    var verb := if p.groups >= 2 then Upper(Group(m, 1).GetOr("")) else "ALL";
    Endpoint(rel, LineOf(text, m.start), p.framework, verb, Group(m, p.groups))
  }

  function MatchRecords(rel: string, text: string, p: EndpointPattern, ms: seq<Match>): seq<Endpoint> {
    if ms == [] then []
    else MatchRecords(rel, text, p, ms[..|ms| - 1]) + [Record(rel, text, p, ms[|ms| - 1])]
  }

  function PatternRecords(e: Engine, rel: string, text: string, ps: seq<EndpointPattern>): seq<Endpoint> {
    if ps == [] then []
    else
      var p := ps[|ps| - 1];
      PatternRecords(e, rel, text, ps[..|ps| - 1]) + MatchRecords(rel, text, p, e(p.regex, text))
  }

  /** The AJAX record of a match: its first non-empty group, or nothing when every group is empty or absent. */
  function AjaxOf(rel: string, text: string, m: Match): Option<AjaxCall> {
    match FirstNonEmpty(m.groups)
    case None => None
    case Some(url) => Some(AjaxCall(rel, LineOf(text, m.start), url))
  }

  function MatchAjax(rel: string, text: string, ms: seq<Match>): set<AjaxCall> {
    if ms == [] then {}
    else
      MatchAjax(rel, text, ms[..|ms| - 1])
      + (match AjaxOf(rel, text, ms[|ms| - 1]) case Some(a) => {a} case None => {})
  }

  function FileEndpoints(e: Engine, directory: string, langs: seq<string>, step: Step, f: FileEntry): seq<Endpoint> {
    match Admit(e, directory, langs, step, f)
    case None => []
    case Some((text, lang)) => PatternRecords(e, RelPath(step, f), text, Lookup(EndpointPatterns, lang).GetOr([]))
  }

  function FileAjax(e: Engine, directory: string, langs: seq<string>, step: Step, f: FileEntry): set<AjaxCall> {
    match Admit(e, directory, langs, step, f)
    case None => {}
    case Some((text, _)) => MatchAjax(RelPath(step, f), text, e(AjaxPattern, text))
  }

  // ---------------------------------------------------------------- what the walk yields

  function StepEndpoints(e: Engine, directory: string, langs: seq<string>, step: Step, fs: seq<FileEntry>): seq<Endpoint> {
    if fs == [] then []
    else StepEndpoints(e, directory, langs, step, fs[..|fs| - 1]) + FileEndpoints(e, directory, langs, step, fs[|fs| - 1])
  }

  function StepAjax(e: Engine, directory: string, langs: seq<string>, step: Step, fs: seq<FileEntry>): set<AjaxCall> {
    if fs == [] then {}
    else StepAjax(e, directory, langs, step, fs[..|fs| - 1]) + FileAjax(e, directory, langs, step, fs[|fs| - 1])
  }

  /** The `raw` list in the order the walk appends it. */
  function WalkEndpoints(e: Engine, directory: string, langs: seq<string>, walk: seq<Step>): seq<Endpoint> {
    if walk == [] then []
    else
      var step := walk[|walk| - 1];
      WalkEndpoints(e, directory, langs, walk[..|walk| - 1]) + StepEndpoints(e, directory, langs, step, step.files)
  }

  /** The `ajax_calls` set. */
  function WalkAjax(e: Engine, directory: string, langs: seq<string>, walk: seq<Step>): set<AjaxCall> {
    if walk == [] then {}
    else
      var step := walk[|walk| - 1];
      WalkAjax(e, directory, langs, walk[..|walk| - 1]) + StepAjax(e, directory, langs, step, step.files)
  }

  // ---------------------------------------------------------------- the detector

  class EndpointDetector {
    const directory: string
    const langs: seq<string>

    constructor (directory: string, langs: seq<string>)
      ensures this.directory == directory && this.langs == langs
    {
      this.directory := directory;
      this.langs := langs;
    }

    /** Appends the record of each match of one pattern, in match order. */
    static method AppendMatches(raw: seq<Endpoint>, rel: string, text: string, p: EndpointPattern, ms: seq<Match>)
      returns (out: seq<Endpoint>)
      ensures out == raw + MatchRecords(rel, text, p, ms)
    {
      out := raw;
      for l := 0 to |ms|
        invariant out == raw + MatchRecords(rel, text, p, ms[..l])
      {
        assert ms[..l + 1][..l] == ms[..l];
        out := out + [Record(rel, text, p, ms[l])];
      }
      assert ms[..|ms|] == ms;
    }

    /** Appends the records of every match of every pattern, pattern by pattern. */
    static method AppendEndpoints(raw: seq<Endpoint>, e: Engine, rel: string, text: string, ps: seq<EndpointPattern>)
      returns (out: seq<Endpoint>)
      ensures out == raw + PatternRecords(e, rel, text, ps)
    {
      out := raw;
      for k := 0 to |ps|
        invariant out == raw + PatternRecords(e, rel, text, ps[..k])
      {
        ghost var before := PatternRecords(e, rel, text, ps[..k]);
        var ms := e(ps[k].regex, text);
        PatternRecordsSnoc(e, rel, text, ps, k);
        out := AppendMatches(out, rel, text, ps[k], ms);
        AppendAssoc(raw, before, MatchRecords(rel, text, ps[k], ms));
      }
      assert ps[..|ps|] == ps;
    }

    /** Adds the AJAX record of every match that has a non-empty group. */
    static method AddAjax(calls: set<AjaxCall>, rel: string, text: string, ms: seq<Match>)
      returns (out: set<AjaxCall>)
      ensures out == calls + MatchAjax(rel, text, ms)
    {
      out := calls;
      for l := 0 to |ms|
        invariant out == calls + MatchAjax(rel, text, ms[..l])
      {
        assert ms[..l + 1][..l] == ms[..l];
        var url := FirstNonEmpty(ms[l].groups);
        if url.Some? {
          out := out + {AjaxCall(rel, LineOf(text, ms[l].start), url.value)};
        }
      }
      assert ms[..|ms|] == ms;
    }

    /** The body of the inner walk loop for one file: skip it, or scan it for endpoints and AJAX calls. */
    method ScanFile(raw: seq<Endpoint>, calls: set<AjaxCall>, e: Engine, step: Step, f: FileEntry)
      returns (raw': seq<Endpoint>, calls': set<AjaxCall>)
      ensures raw' == raw + FileEndpoints(e, directory, langs, step, f)
      ensures calls' == calls + FileAjax(e, directory, langs, step, f)
    {
      raw', calls' := raw, calls;
      if AnyHit(e, IgnorePatterns, FullPath(directory, step, f)) {
        return;
      }
      var lang := Lookup(ExtensionLangMap, Lower(Ext(f.name)));
      if lang.None? || f.content.None? {
        return;
      }
      var text := f.content.value;
      var rel := RelPath(step, f);
      if lang.value !in langs {
        return;
      }
      raw' := AppendEndpoints(raw, e, rel, text, Lookup(EndpointPatterns, lang.value).GetOr([]));
      calls' := AddAjax(calls, rel, text, e(AjaxPattern, text));
    }

    /** The files of one directory of the walk, in order. */
    method ScanStep(raw: seq<Endpoint>, calls: set<AjaxCall>, e: Engine, step: Step)
      returns (raw': seq<Endpoint>, calls': set<AjaxCall>)
      ensures raw' == raw + StepEndpoints(e, directory, langs, step, step.files)
      ensures calls' == calls + StepAjax(e, directory, langs, step, step.files)
    {
      raw', calls' := raw, calls;
      for j := 0 to |step.files|
        invariant raw' == raw + StepEndpoints(e, directory, langs, step, step.files[..j])
        invariant calls' == calls + StepAjax(e, directory, langs, step, step.files[..j])
      {
        ghost var done := StepEndpoints(e, directory, langs, step, step.files[..j]);
        ghost var doneAjax := StepAjax(e, directory, langs, step, step.files[..j]);
        ghost var found := FileEndpoints(e, directory, langs, step, step.files[j]);
        StepSnoc(e, directory, langs, step, j);
        raw', calls' := ScanFile(raw', calls', e, step, step.files[j]);
        AppendAssoc(raw, done, found);
      }
      assert step.files[..|step.files|] == step.files;
    }

    /**
     * `detect()`: the endpoints are the raw records in stable (file, line)
     * order, duplicates kept; the AJAX list holds each distinct record once,
     * in increasing tuple order.
     */
    method Detect(walk: seq<Step>, e: Engine) returns (endpoints: seq<Endpoint>, ajax: seq<AjaxCall>)
      ensures endpoints == SortByFileLine(WalkEndpoints(e, directory, langs, walk))
      ensures StrictlySorted(ajax)
      ensures forall a :: a in ajax <==> a in WalkAjax(e, directory, langs, walk)
    {
      var raw: seq<Endpoint> := [];
      var calls: set<AjaxCall> := {};
      for i := 0 to |walk|
        invariant raw == WalkEndpoints(e, directory, langs, walk[..i])
        invariant calls == WalkAjax(e, directory, langs, walk[..i])
      {
        assert walk[..i + 1][..i] == walk[..i];
        raw, calls := ScanStep(raw, calls, e, walk[i]);
      }
      assert walk[..|walk|] == walk;
      var sorted := new Endpoint[|raw|](k requires 0 <= k < |raw| => raw[k]);
      assert sorted[..] == raw;
      SortEndpoints(sorted);
      endpoints := sorted[..];
      ajax := SortAjax(calls);
    }

    /** `confidence()`: 1.0 exactly when the scan finds an endpoint or an AJAX call, else 0.0. */
    method Confidence(walk: seq<Step>, e: Engine) returns (c: real)
      ensures c == 0.0 || c == 1.0
      ensures c == 1.0 <==> WalkEndpoints(e, directory, langs, walk) != [] || WalkAjax(e, directory, langs, walk) != {}
    {
      var endpoints, ajax := Detect(walk, e);
      SortByFileLinePermutation(WalkEndpoints(e, directory, langs, walk));
      if ajax != [] {
        assert ajax[0] in WalkAjax(e, directory, langs, walk);
      }
      if WalkAjax(e, directory, langs, walk) != {} {
        var a :| a in WalkAjax(e, directory, langs, walk);
        assert a in ajax;
      }
      c := if endpoints != [] || ajax != [] then 1.0 else 0.0;
    }
  }

  // ---------------------------------------------------------------- one more loop iteration

  lemma PatternRecordsSnoc(e: Engine, rel: string, text: string, ps: seq<EndpointPattern>, k: nat)
    requires k < |ps|
    ensures PatternRecords(e, rel, text, ps[..k + 1])
      == PatternRecords(e, rel, text, ps[..k]) + MatchRecords(rel, text, ps[k], e(ps[k].regex, text))
  {
    assert ps[..k + 1][..k] == ps[..k];
  }

  lemma StepSnoc(e: Engine, directory: string, langs: seq<string>, step: Step, j: nat)
    requires j < |step.files|
    ensures StepEndpoints(e, directory, langs, step, step.files[..j + 1])
      == StepEndpoints(e, directory, langs, step, step.files[..j]) + FileEndpoints(e, directory, langs, step, step.files[j])
    ensures StepAjax(e, directory, langs, step, step.files[..j + 1])
      == StepAjax(e, directory, langs, step, step.files[..j]) + FileAjax(e, directory, langs, step, step.files[j])
  {
    assert step.files[..j + 1][..j] == step.files[..j];
  }

  // ---------------------------------------------------------------- where records come from

  lemma {:induction false} MatchRecordsIff(rel: string, text: string, p: EndpointPattern, ms: seq<Match>, r: Endpoint)
    ensures r in MatchRecords(rel, text, p, ms) <==> exists k :: 0 <= k < |ms| && r == Record(rel, text, p, ms[k])
    decreases |ms|
  {
    if ms != [] {
      var init := ms[..|ms| - 1];
      MatchRecordsIff(rel, text, p, init, r);
      if exists k :: 0 <= k < |ms| && r == Record(rel, text, p, ms[k]) {
        var k :| 0 <= k < |ms| && r == Record(rel, text, p, ms[k]);
        if k < |ms| - 1 { assert init[k] == ms[k]; }
      }
    }
  }

  lemma {:induction false} PatternRecordsIff(e: Engine, rel: string, text: string, ps: seq<EndpointPattern>, r: Endpoint)
    ensures r in PatternRecords(e, rel, text, ps) <==>
      exists j, k :: 0 <= j < |ps| && 0 <= k < |e(ps[j].regex, text)| && r == Record(rel, text, ps[j], e(ps[j].regex, text)[k])
    decreases |ps|
  {
    if ps != [] {
      var init := ps[..|ps| - 1];
      var p := ps[|ps| - 1];
      PatternRecordsIff(e, rel, text, init, r);
      MatchRecordsIff(rel, text, p, e(p.regex, text), r);
      if exists j, k :: 0 <= j < |ps| && 0 <= k < |e(ps[j].regex, text)| && r == Record(rel, text, ps[j], e(ps[j].regex, text)[k]) {
        var j, k :| 0 <= j < |ps| && 0 <= k < |e(ps[j].regex, text)| && r == Record(rel, text, ps[j], e(ps[j].regex, text)[k]);
        if j < |ps| - 1 { assert init[j] == ps[j]; }
      }
      if r in PatternRecords(e, rel, text, init) {
        var j, k :| 0 <= j < |init| && 0 <= k < |e(init[j].regex, text)| && r == Record(rel, text, init[j], e(init[j].regex, text)[k]);
        assert ps[j] == init[j];
      }
    }
  }

  lemma {:induction false} StepEndpointsIff(e: Engine, directory: string, langs: seq<string>, step: Step, fs: seq<FileEntry>, r: Endpoint)
    ensures r in StepEndpoints(e, directory, langs, step, fs) <==>
      exists k :: 0 <= k < |fs| && r in FileEndpoints(e, directory, langs, step, fs[k])
    decreases |fs|
  {
    if fs != [] {
      var init := fs[..|fs| - 1];
      StepEndpointsIff(e, directory, langs, step, init, r);
      ExistsSnoc(fs, init, (f: FileEntry) => r in FileEndpoints(e, directory, langs, step, f));
    }
  }

  /** A record is in `raw` exactly when some walked file yields it. */
  lemma {:induction false} WalkEndpointsIff(e: Engine, directory: string, langs: seq<string>, walk: seq<Step>, r: Endpoint)
    ensures r in WalkEndpoints(e, directory, langs, walk) <==>
      exists i, k :: 0 <= i < |walk| && 0 <= k < |walk[i].files| && r in FileEndpoints(e, directory, langs, walk[i], walk[i].files[k])
    decreases |walk|
  {
    if walk != [] {
      var init := walk[..|walk| - 1];
      var step := walk[|walk| - 1];
      WalkEndpointsIff(e, directory, langs, init, r);
      StepEndpointsIff(e, directory, langs, step, step.files, r);
      if exists i, k :: 0 <= i < |walk| && 0 <= k < |walk[i].files| && r in FileEndpoints(e, directory, langs, walk[i], walk[i].files[k]) {
        var i, k :| 0 <= i < |walk| && 0 <= k < |walk[i].files| && r in FileEndpoints(e, directory, langs, walk[i], walk[i].files[k]);
        if i < |walk| - 1 { assert init[i] == walk[i]; }
      }
      if r in WalkEndpoints(e, directory, langs, init) {
        var i, k :| 0 <= i < |init| && 0 <= k < |init[i].files| && r in FileEndpoints(e, directory, langs, init[i], init[i].files[k]);
        assert walk[i] == init[i];
      }
    }
  }

  lemma {:induction false} MatchAjaxIff(rel: string, text: string, ms: seq<Match>, a: AjaxCall)
    ensures a in MatchAjax(rel, text, ms) <==> exists k :: 0 <= k < |ms| && AjaxOf(rel, text, ms[k]) == Some(a)
    decreases |ms|
  {
    if ms != [] {
      var init := ms[..|ms| - 1];
      MatchAjaxIff(rel, text, init, a);
      if exists k :: 0 <= k < |ms| && AjaxOf(rel, text, ms[k]) == Some(a) {
        var k :| 0 <= k < |ms| && AjaxOf(rel, text, ms[k]) == Some(a);
        if k < |ms| - 1 { assert init[k] == ms[k]; }
      }
    }
  }

  lemma {:induction false} StepAjaxIff(e: Engine, directory: string, langs: seq<string>, step: Step, fs: seq<FileEntry>, a: AjaxCall)
    ensures a in StepAjax(e, directory, langs, step, fs) <==>
      exists k :: 0 <= k < |fs| && a in FileAjax(e, directory, langs, step, fs[k])
    decreases |fs|
  {
    if fs != [] {
      var init := fs[..|fs| - 1];
      StepAjaxIff(e, directory, langs, step, init, a);
      ExistsSnoc(fs, init, (f: FileEntry) => a in FileAjax(e, directory, langs, step, f));
    }
  }

  /** An AJAX record is in the set exactly when some walked file yields it. */
  lemma {:induction false} WalkAjaxIff(e: Engine, directory: string, langs: seq<string>, walk: seq<Step>, a: AjaxCall)
    ensures a in WalkAjax(e, directory, langs, walk) <==>
      exists i, k :: 0 <= i < |walk| && 0 <= k < |walk[i].files| && a in FileAjax(e, directory, langs, walk[i], walk[i].files[k])
    decreases |walk|
  {
    if walk != [] {
      var init := walk[..|walk| - 1];
      var step := walk[|walk| - 1];
      WalkAjaxIff(e, directory, langs, init, a);
      StepAjaxIff(e, directory, langs, step, step.files, a);
      if exists i, k :: 0 <= i < |walk| && 0 <= k < |walk[i].files| && a in FileAjax(e, directory, langs, walk[i], walk[i].files[k]) {
        var i, k :| 0 <= i < |walk| && 0 <= k < |walk[i].files| && a in FileAjax(e, directory, langs, walk[i], walk[i].files[k]);
        if i < |walk| - 1 { assert init[i] == walk[i]; }
      }
      if a in WalkAjax(e, directory, langs, init) {
        var i, k :| 0 <= i < |init| && 0 <= k < |init[i].files| && a in FileAjax(e, directory, langs, init[i], init[i].files[k]);
        assert walk[i] == init[i];
      }
    }
  }

  // ---------------------------------------------------------------- properties of the scan

  /** A file whose full path matches an ignore pattern yields neither endpoints nor AJAX calls. */
  lemma IgnoredFileYieldsNothing(e: Engine, directory: string, langs: seq<string>, step: Step, f: FileEntry)
    requires exists i :: 0 <= i < |IgnorePatterns| && Search(e, IgnorePatterns[i], FullPath(directory, step, f)).Some?
    ensures FileEndpoints(e, directory, langs, step, f) == []
    ensures FileAjax(e, directory, langs, step, f) == {}
  {
  }

  /** The file extension map only reaches eight languages: the C#, Rust and "JavaScript/TypeScript" tables are never used. */
  lemma ExtensionLanguages(ext: string)
    ensures Lookup(ExtensionLangMap, ext).Some? ==> Lookup(ExtensionLangMap, ext).value in MappedLanguages
    ensures "C#" !in MappedLanguages && "Rust" !in MappedLanguages && "JavaScript/TypeScript" !in MappedLanguages
  {
  }

  /** The frameworks of one language's endpoint table. */
  function Frameworks(lang: string): set<string> {
    var ps := Lookup(EndpointPatterns, lang).GetOr([]);
    set i | 0 <= i < |ps| :: ps[i].framework
  }

  /**
   * Every endpoint record comes from a scanned file: its path matches no
   * ignore pattern, it is readable, its extension maps to an active language,
   * and the record carries that file's relative path, a line number of at
   * least 1 and a framework of that language's table.
   */
  lemma EndpointOrigin(e: Engine, directory: string, langs: seq<string>, walk: seq<Step>, r: Endpoint)
    requires r in WalkEndpoints(e, directory, langs, walk)
    ensures
      exists i, k | 0 <= i < |walk| && 0 <= k < |walk[i].files| ::
        var f := walk[i].files[k];
        var lang := Lookup(ExtensionLangMap, Lower(Ext(f.name)));
        && !AnyHit(e, IgnorePatterns, FullPath(directory, walk[i], f))
        && f.content.Some?
        && lang.Some? && lang.value in langs && lang.value in MappedLanguages
        && r.file == RelPath(walk[i], f) && r.line >= 1 && r.framework in Frameworks(lang.value)
  {
    WalkEndpointsIff(e, directory, langs, walk, r);
    var i, k :| 0 <= i < |walk| && 0 <= k < |walk[i].files| && r in FileEndpoints(e, directory, langs, walk[i], walk[i].files[k]);
    var f := walk[i].files[k];
    var lang := Lookup(ExtensionLangMap, Lower(Ext(f.name)));
    ExtensionLanguages(Lower(Ext(f.name)));
    var text := f.content.value;
    var ps := Lookup(EndpointPatterns, lang.value).GetOr([]);
    PatternRecordsIff(e, RelPath(walk[i], f), text, ps, r);
    var j, l :| 0 <= j < |ps| && 0 <= l < |e(ps[j].regex, text)| && r == Record(RelPath(walk[i], f), text, ps[j], e(ps[j].regex, text)[l]);
    assert r.framework == ps[j].framework;
  }

  /** Conversely, every match of every pattern of a scanned file's language yields a record. */
  lemma EndpointCompleteness(e: Engine, directory: string, langs: seq<string>, walk: seq<Step>, i: nat, k: nat, j: nat, l: nat)
    requires i < |walk| && k < |walk[i].files|
    requires Admit(e, directory, langs, walk[i], walk[i].files[k]).Some?
    requires var ps := Lookup(EndpointPatterns, Admit(e, directory, langs, walk[i], walk[i].files[k]).value.1).GetOr([]);
      j < |ps| && l < |e(ps[j].regex, Admit(e, directory, langs, walk[i], walk[i].files[k]).value.0)|
    ensures var (text, lang) := Admit(e, directory, langs, walk[i], walk[i].files[k]).value;
      var p := Lookup(EndpointPatterns, lang).GetOr([])[j];
      Record(RelPath(walk[i], walk[i].files[k]), text, p, e(p.regex, text)[l]) in WalkEndpoints(e, directory, langs, walk)
  {
    var f := walk[i].files[k];
    var (text, lang) := Admit(e, directory, langs, walk[i], f).value;
    var ps := Lookup(EndpointPatterns, lang).GetOr([]);
    var r := Record(RelPath(walk[i], f), text, ps[j], e(ps[j].regex, text)[l]);
    PatternRecordsIff(e, RelPath(walk[i], f), text, ps, r);
    WalkEndpointsIff(e, directory, langs, walk, r);
  }

  /**
   * Every AJAX record comes from a scanned file and a match of the AJAX
   * pattern whose first non-empty group is the call, on a line of at least 1.
   */
  lemma AjaxOrigin(e: Engine, directory: string, langs: seq<string>, walk: seq<Step>, a: AjaxCall)
    requires a in WalkAjax(e, directory, langs, walk)
    ensures
      exists i, k | 0 <= i < |walk| && 0 <= k < |walk[i].files| ::
        var f := walk[i].files[k];
        var lang := Lookup(ExtensionLangMap, Lower(Ext(f.name)));
        && !AnyHit(e, IgnorePatterns, FullPath(directory, walk[i], f))
        && f.content.Some? && lang.Some? && lang.value in langs
        && a.file == RelPath(walk[i], f) && a.line >= 1 && a.url != ""
        && exists m :: m in e(AjaxPattern, f.content.value) && FirstNonEmpty(m.groups) == Some(a.url)
  {
    WalkAjaxIff(e, directory, langs, walk, a);
    var i, k :| 0 <= i < |walk| && 0 <= k < |walk[i].files| && a in FileAjax(e, directory, langs, walk[i], walk[i].files[k]);
    var f := walk[i].files[k];
    var text := f.content.value;
    var ms := e(AjaxPattern, text);
    MatchAjaxIff(RelPath(walk[i], f), text, ms, a);
    var l :| 0 <= l < |ms| && AjaxOf(RelPath(walk[i], f), text, ms[l]) == Some(a);
    FirstNonEmptyIsFirst(ms[l].groups);
    assert ms[l] in ms;
  }

  /** An AJAX match none of whose groups captured text yields no record. */
  lemma AjaxNeedsCapture(rel: string, text: string, m: Match)
    ensures AjaxOf(rel, text, m).None? <==> forall g :: 0 <= g < |m.groups| ==> !Captured(m.groups[g])
  {
    FirstNonEmptyIsFirst(m.groups);
  }

  /**
   * With an engine that behaves like the compiled patterns (each match has
   * the pattern's groups, the mandatory ones present), a two-group pattern
   * gives the upper-cased verb and a present route, and a one-group pattern
   * gives "ALL" and a route that is absent only when its group is optional.
   */
  lemma RecordFields(e: Engine, rel: string, text: string, li: nat, pj: nat, m: Match)
    requires li < |EndpointPatterns| && pj < |EndpointPatterns[li].1|
    requires var p := EndpointPatterns[li].1[pj]; Shaped(e, p.regex, p.groups, p.required) && m in e(p.regex, text)
    ensures var p := EndpointPatterns[li].1[pj];
      var r := Record(rel, text, p, m);
      && r.file == rel && r.line >= 1 && r.framework == p.framework
      && (p.groups == 2 ==> |m.groups| == 2 && m.groups[0].Some? && r.verb == Upper(m.groups[0].value)
                             && r.route.Some? && r.route == m.groups[1])
      && (p.groups == 1 ==> |m.groups| == 1 && r.verb == "ALL" && r.route == m.groups[0]
                             && (p.required == 1 ==> r.route.Some?))
  {
    var p := EndpointPatterns[li].1[pj];
    EndpointGroupCounts();
    var ms := e(p.regex, text);
    var k :| 0 <= k < |ms| && ms[k] == m;
    assert |ms[k].groups| == p.groups;
  }
}
