/**
 * The command's analysis pipeline: it picks the main language from the
 * language distribution, keeps the languages that have endpoint patterns,
 * merges the dependency and configuration findings into the technology stack,
 * and gathers the nine result sections the report is built from.
 */
module Cli {
  import opened Wrappers
  import opened Patterns
  import opened FileTree
  import opened Regex
  import opened EndpointRecords
  import opened LanguageAnalysis
  import opened StackAnalysis
  import opened DependencyAnalysis
  import opened EndpointDetection
  import opened ConfigDetection
  import opened FileDetection

  type Distribution = seq<(string, real)>
  type TechStack = map<string, set<string>>

  // ---------------------------------------------------------------- main language

  /** The index of the first entry whose share is largest. */
  function ArgMax(d: Distribution): (i: nat)
    requires d != []
    ensures i < |d|
    ensures forall j :: 0 <= j < |d| ==> d[j].1 <= d[i].1
    ensures forall j :: 0 <= j < i ==> d[j].1 < d[i].1
    decreases |d|
  {
    if |d| == 1 then 0
    else
      var k := ArgMax(d[..|d| - 1]);
      if d[|d| - 1].1 > d[k].1 then |d| - 1 else k
  }

  /** `max(distro, key=distro.get) if distro else None`: the first language with the largest share. */
  function MainLang(d: Distribution): (r: Option<string>)
    ensures r.None? <==> d == []
    ensures r.Some? ==> exists i | 0 <= i < |d| && d[i].0 == r.value ::
      (forall j :: 0 <= j < |d| ==> d[j].1 <= d[i].1) && forall j :: 0 <= j < i ==> d[j].1 < d[i].1
  {
    if d == [] then None else Some(d[ArgMax(d)].0)
  }

  // ---------------------------------------------------------------- active languages

  /** `[lang for lang in distro.keys() if lang in ENDPOINT_PATTERNS]` */
  function ActiveLangs(d: Distribution, table: seq<(string, seq<EndpointPattern>)>): (r: seq<string>)
    ensures |r| <= |d|
    ensures forall x :: x in r ==> HasKey(table, x)
    decreases |d|
  {
    if d == [] then []
    else ActiveLangs(d[..|d| - 1], table) + (if HasKey(table, d[|d| - 1].0) then [d[|d| - 1].0] else [])
  }

  /** The filter keeps order: it distributes over concatenation. */
  lemma {:induction false} ActiveLangsAppend(a: Distribution, b: Distribution, table: seq<(string, seq<EndpointPattern>)>)
    ensures ActiveLangs(a + b, table) == ActiveLangs(a, table) + ActiveLangs(b, table)
    decreases |b|
  {
    if b != [] {
      var b0 := b[..|b| - 1];
      var x := b[|b| - 1];
      assert (a + b)[..|a + b| - 1] == a + b0;
      ActiveLangsAppend(a, b0, table);
      Text.AppendAssoc(ActiveLangs(a, table), ActiveLangs(b0, table), if HasKey(table, x.0) then [x.0] else []);
    } else {
      assert a + b == a;
    }
  }

  /** A language is active exactly when it has a share and endpoint patterns. */
  lemma {:induction false} ActiveLangsMember(d: Distribution, table: seq<(string, seq<EndpointPattern>)>, x: string, n: nat)
    requires n <= |d|
    ensures x in ActiveLangs(d[..n], table) <==> HasKey(table, x) && exists i :: 0 <= i < n && d[i].0 == x
    decreases n
  {
    if n > 0 {
      assert d[..n][..n - 1] == d[..n - 1];
      ActiveLangsMember(d, table, x, n - 1);
    }
  }

  // ---------------------------------------------------------------- merge

  /** The dependency categories the merge takes over: the non-empty ones. */
  function DepCats(deps: TechStack): set<string> {
    set c | c in deps && deps[c] != {}
  }

  /** The stack after `tech_stack.setdefault(cat, set()).update(items)` for each non-empty category. */
  function WithDeps(stack: TechStack, deps: TechStack): TechStack {
    map k | k in stack.Keys + DepCats(deps) :: Get(stack, k) + Get(deps, k)
  }

  /** Where a configuration technology is filed. */
  function Category(tech: string): string {
    if tech in {"MySQL", "PostgreSQL", "Redis"} then "database" else "backend"
  }

  /** `tech_stack.setdefault(category, set()).add(tech)` */
  function Place(m: TechStack, tech: string): TechStack {
    m[Category(tech) := Get(m, Category(tech)) + {tech}]
  }

  /** The configuration technologies filed one after the other. */
  function PlaceAll(m: TechStack, configs: PathLists): TechStack {
    if configs == [] then m else Place(PlaceAll(m, configs[..|configs| - 1]), configs[|configs| - 1].0)
  }

  /** The merged stack. */
  function Merged(stack: TechStack, deps: TechStack, configs: PathLists): TechStack {
    PlaceAll(WithDeps(stack, deps), configs)
  }

  /** The configuration technologies filed under `k`. */
  function TechsIn(configs: PathLists, k: string): set<string> {
    set e | e in configs && Category(e.0) == k :: e.0
  }

  /** The categories configuration technologies are filed under. */
  function ConfigCats(configs: PathLists): set<string> {
    set e | e in configs :: Category(e.0)
  }

  /**
   * What the merge adds up to, category by category: the stack's entry, the
   * dependency category's entry when non-empty, and the configuration
   * technologies filed there.
   */
  function Expected(stack: TechStack, deps: TechStack, configs: PathLists): TechStack {
    map k | k in stack.Keys + DepCats(deps) + ConfigCats(configs) :: Get(stack, k) + Get(deps, k) + TechsIn(configs, k)
  }

  /** One more configuration technology adds its category and itself to that category. */
  lemma CatsSnoc(configs: PathLists)
    requires configs != []
    ensures var init := configs[..|configs| - 1];
      var t := configs[|configs| - 1].0;
      && ConfigCats(configs) == ConfigCats(init) + {Category(t)}
      && forall k :: TechsIn(configs, k) == TechsIn(init, k) + (if Category(t) == k then {t} else {})
  {
    var init := configs[..|configs| - 1];
    var last := configs[|configs| - 1];
    assert forall e :: e in configs <==> e in init || e == last by {
      assert configs == init + [last];
    }
  }

  /** Category by category, the filed stack is the old entry plus the technologies filed there. */
  lemma {:induction false} PlaceAllGet(m: TechStack, configs: PathLists)
    ensures forall k :: k in PlaceAll(m, configs) <==> k in m || k in ConfigCats(configs)
    ensures forall k :: Get(PlaceAll(m, configs), k) == Get(m, k) + TechsIn(configs, k)
    decreases |configs|
  {
    if configs == [] {
      assert ConfigCats(configs) == {};
      assert forall k :: TechsIn(configs, k) == {};
    } else {
      var init := configs[..|configs| - 1];
      PlaceAllGet(m, init);
      CatsSnoc(configs);
    }
  }

  /** Category by category, the stack with the dependencies is the union of the two. */
  lemma WithDepsGet(stack: TechStack, deps: TechStack)
    ensures forall k :: k in WithDeps(stack, deps) <==> k in stack || k in DepCats(deps)
    ensures forall k :: Get(WithDeps(stack, deps), k) == Get(stack, k) + Get(deps, k)
  {
  }

  /** The merge is the category-by-category union of its three inputs. */
  lemma MergedIsExpected(stack: TechStack, deps: TechStack, configs: PathLists)
    ensures Merged(stack, deps, configs) == Expected(stack, deps, configs)
  {
    var w := WithDeps(stack, deps);
    var m := Merged(stack, deps, configs);
    var x := Expected(stack, deps, configs);
    PlaceAllGet(w, configs);
    WithDepsGet(stack, deps);
    forall k | k in stack || k in DepCats(deps)
      ensures k in w
    {
    }
    assert m.Keys == x.Keys;
    forall k | k in m
      ensures m[k] == x[k]
    {
      assert Get(m, k) == m[k];
    }
  }

  /**
   * The merge only adds: every category of the stack stays with all its
   * technologies, each non-empty dependency category is unioned in, and each
   * configuration technology lands in "database" or "backend".
   */
  lemma MergeOnlyAdds(stack: TechStack, deps: TechStack, configs: PathLists)
    ensures var m := Merged(stack, deps, configs);
      && (forall k :: k in stack ==> k in m && stack[k] <= m[k])
      && (forall c :: c in deps && deps[c] != {} ==> c in m && deps[c] <= m[c])
      && (forall i :: 0 <= i < |configs| ==> Category(configs[i].0) in m && configs[i].0 in m[Category(configs[i].0)])
  {
    MergedIsExpected(stack, deps, configs);
    var m := Merged(stack, deps, configs);
    forall i | 0 <= i < |configs|
      ensures Category(configs[i].0) in m && configs[i].0 in m[Category(configs[i].0)]
    {
      assert configs[i] in configs;
      assert configs[i].0 in TechsIn(configs, Category(configs[i].0));
    }
  }

  /** Nothing else is added: an empty dependency category creates no key of its own. */
  lemma MergeAddsNothingElse(stack: TechStack, deps: TechStack, configs: PathLists, k: string)
    requires k !in stack && (k !in deps || deps[k] == {})
    requires k != "database" && k != "backend"
    ensures k !in Merged(stack, deps, configs)
  {
    MergedIsExpected(stack, deps, configs);
  }

  /** Two stacks with the same categories and the same entries are equal. */
  lemma GetDetermines(a: TechStack, b: TechStack)
    requires forall k :: k in a <==> k in b
    requires forall k :: Get(a, k) == Get(b, k)
    ensures a == b
  {
    assert a.Keys == b.Keys;
    forall k | k in a
      ensures a[k] == b[k]
    {
      assert Get(a, k) == a[k] && Get(b, k) == b[k];
    }
  }

  /** The stack once the categories in `done` have been merged. */
  ghost predicate MergedSoFar(techStack: TechStack, stack: TechStack, deps: TechStack, done: set<string>) {
    && (forall k :: k in techStack <==> k in stack || (k in deps && k in done && deps[k] != {}))
    && (forall k :: Get(techStack, k) == Get(stack, k) + (if k in deps && k in done then deps[k] else {}))
  }

  /** Merging one more category keeps the record of what has been merged. */
  lemma MergeStep(techStack: TechStack, stack: TechStack, deps: TechStack, done: set<string>, cat: string)
    requires MergedSoFar(techStack, stack, deps, done) && cat in deps && cat !in done
    ensures MergedSoFar(if deps[cat] != {} then techStack[cat := Get(techStack, cat) + deps[cat]] else techStack, stack, deps, done + {cat})
  {
  }

  /** With every category merged, the stack is the union. */
  lemma MergeDone(techStack: TechStack, stack: TechStack, deps: TechStack)
    requires MergedSoFar(techStack, stack, deps, deps.Keys)
    ensures techStack == WithDeps(stack, deps)
  {
    WithDepsGet(stack, deps);
    GetDetermines(techStack, WithDeps(stack, deps));
  }

  /** Adds every non-empty dependency category to the stack, creating the category when it is missing. */
  method MergeDeps(stack: TechStack, deps: TechStack) returns (techStack: TechStack)
    ensures techStack == WithDeps(stack, deps)
  {
    techStack := stack;
    var todo := deps.Keys;
    while todo != {}
      invariant todo <= deps.Keys
      invariant MergedSoFar(techStack, stack, deps, deps.Keys - todo)
      decreases todo
    {
      var cat :| cat in todo;
      MergeStep(techStack, stack, deps, deps.Keys - todo, cat);
      if deps[cat] != {} {
        techStack := techStack[cat := Get(techStack, cat) + deps[cat]];
      }
      assert deps.Keys - (todo - {cat}) == (deps.Keys - todo) + {cat};
      todo := todo - {cat};
    }
    assert deps.Keys - todo == deps.Keys;
    MergeDone(techStack, stack, deps);
  }

  /** Files every configuration technology under "database" when it is MySQL, PostgreSQL or Redis, and under "backend" otherwise. */
  method PlaceConfigs(m: TechStack, configs: PathLists) returns (techStack: TechStack)
    ensures techStack == PlaceAll(m, configs)
  {
    techStack := m;
    for i := 0 to |configs|
      invariant techStack == PlaceAll(m, configs[..i])
    {
      assert configs[..i + 1][..i] == configs[..i];
      var tech := configs[i].0;
      if tech in {"MySQL", "PostgreSQL", "Redis"} {
        techStack := techStack["database" := Get(techStack, "database") + {tech}];
      } else {
        techStack := techStack["backend" := Get(techStack, "backend") + {tech}];
      }
    }
    assert configs[..|configs|] == configs;
  }

  /** The merge step of the command, updating the stack in place. */
  method Merge(stack: TechStack, deps: TechStack, configs: PathLists) returns (techStack: TechStack)
    ensures techStack == Merged(stack, deps, configs)
  {
    techStack := MergeDeps(stack, deps);
    techStack := PlaceConfigs(techStack, configs);
  }

  // ---------------------------------------------------------------- results

  /** The SLOC section: lines per language and their total. */
  datatype Sloc = Sloc(byLang: Counts, total: nat)

  /** The nine sections handed to the report generator. */
  datatype Results = Results(
    languages: Distribution,
    sloc: Sloc,
    stack: TechStack,
    dependencies: TechStack,
    secrets: Option<seq<(string, seq<string>)>>,
    endpoints: seq<Endpoint>,
    ajax: seq<AjaxCall>,
    configs: PathLists,
    configSecrets: seq<(string, seq<string>)>)

  /** What `detect_languages()` returns: each language's share of the files read, none when no file is read. */
  function Distro(directory: string, walk: seq<Step>): Distribution {
    var files := ReadFiles(directory, walk);
    if files == [] then [] else Shares(Tally(files, LangExtensions, false), |files|)
  }

  /** What the dependency analyzer's `analyze()` gives for a main language: None when it raises. */
  function Dependencies(directory: string, lang: string, walk: seq<Step>, parse: JsonParser): Option<TechStack> {
    Analysis(directory, lang, walk, parse, Lookup(DependencyPatterns, lang).GetOr([]), JsTechDetection)
  }

  /** Step 1: the language distribution and the source lines per language. */
  method Languages(directory: string, walk: seq<Step>) returns (distro: Distribution, sloc: Sloc)
    ensures distro == Distro(directory, walk)
    ensures distro == [] <==> ReadFiles(directory, walk) == []
    ensures sloc.byLang == Tally(ReadFiles(directory, walk), LangExtensions, true)
    ensures sloc.total == Sum(sloc.byLang)
  {
    var langs := new LanguageAnalyzer(directory);
    distro := langs.DetectLanguages(walk);
    LanguagesPresent(directory, walk);
    var slocByLang, totalSloc := langs.CountSloc(walk);
    sloc := Sloc(slocByLang, totalSloc);
  }

  /**
   * Steps 2 and 3: the stack from structure and code, with the file
   * detector as written, and the dependencies, for the main language.
   * TECHNOLOGIES_BY_LANG and TECHNOLOGY_DETECTORS are `catalog` and `table`.
   */
  method Technologies(directory: string, mainLang: Option<string>, walk: seq<Step>, e: Engine, glob: Glob, parse: JsonParser,
                      catalog: Catalog, table: DetectorTable)
    returns (techStack: TechStack, deps: Option<TechStack>)
    requires KnownCategories(catalog)
    ensures techStack == LangStack(AsWritten, directory, mainLang.GetOr(""), walk, e, glob, catalog, table)
    ensures forall k :: k in techStack <==> k in ResultKeys
    ensures deps == Dependencies(directory, mainLang.GetOr(""), walk, parse)
  {
    var stacks := new StackAnalyzer(directory, mainLang.GetOr(""));
    stacks.PrepareFrom(JsTechDetection, catalog, table);
    assert stacks.detectors == Planned(mainLang.GetOr(""), JsTechDetection, catalog, table);
    techStack := stacks.AnalyzeStack(AsWritten, walk, e, glob);
    var depAnalyzer := new DependencyAnalyzer(directory, mainLang.GetOr(""));
    deps := depAnalyzer.Analyze(walk, parse);
  }

  /** Step 5: the endpoints and calls of the active languages. */
  method Endpoints(directory: string, active: seq<string>, walk: seq<Step>, e: Engine) returns (endpoints: seq<Endpoint>, ajax: seq<AjaxCall>)
    ensures endpoints == SortByFileLine(WalkEndpoints(e, directory, active, walk))
    ensures StrictlySorted(ajax) && forall a :: a in ajax <==> a in WalkAjax(e, directory, active, walk)
  {
    var endpointDetector := new EndpointDetector(directory, active);
    endpoints, ajax := endpointDetector.Detect(walk, e);
  }

  /** What a fresh configuration detector over CONFIG_PATTERNS ends with after `detect()`. */
  function ConfigRun(directory: string, walk: seq<Step>, e: Engine): ConfigState {
    WalkState(ConfigState([], []), e, directory, walk, ConfigPatterns)
  }

  /** Step 6: the configuration technologies and the secrets found beside them. */
  method Configs(directory: string, walk: seq<Step>, e: Engine) returns (configs: PathLists, secrets: seq<(string, seq<string>)>)
    ensures configs == ConfigRun(directory, walk, e).detected
    ensures secrets == ConfigRun(directory, walk, e).secrets
  {
    var configDetector := new ConfigDetector(directory, Some(ConfigPatterns));
    configs := configDetector.Detect(walk, e);
    secrets := configDetector.secrets;
  }

  /**
   * The sections of a completed run, each as its step computes it: the
   * distribution and SLOC of the language analyzer, the dependencies and
   * the stack of the main language merged with them and the configuration
   * technologies, the endpoints and calls of the active languages, and the
   * configuration detector's findings.
   */
  ghost predicate Sections(x: Results, directory: string, walk: seq<Step>, e: Engine, glob: Glob, parse: JsonParser,
                          catalog: Catalog, table: DetectorTable)
    requires KnownCategories(catalog)
  {
    var lang := MainLang(x.languages).GetOr("");
    var active := ActiveLangs(x.languages, EndpointPatterns);
    && x.languages == Distro(directory, walk)
    && x.sloc == Sloc(Tally(ReadFiles(directory, walk), LangExtensions, true), Sum(x.sloc.byLang))
    && Some(x.dependencies) == Dependencies(directory, lang, walk, parse)
    && x.stack == Merged(LangStack(AsWritten, directory, lang, walk, e, glob, catalog, table), x.dependencies, x.configs)
    && x.secrets.None?
    && x.endpoints == SortByFileLine(WalkEndpoints(e, directory, active, walk))
    && StrictlySorted(x.ajax) && (forall a :: a in x.ajax <==> a in WalkAjax(e, directory, active, walk))
    && x.configs == ConfigRun(directory, walk, e).detected
    && x.configSecrets == ConfigRun(directory, walk, e).secrets
  }

  /**
   * Steps 5 to 8: the endpoints and calls of the active languages, the
   * configuration findings, and the stack merged with the dependencies and
   * the configuration technologies.
   */
  method Assemble(directory: string, walk: seq<Step>, e: Engine, distro: Distribution, sloc: Sloc, techStack: TechStack, deps: TechStack)
    returns (x: Results)
    ensures x.languages == distro && x.sloc == sloc && x.dependencies == deps && x.secrets.None?
    ensures x.stack == Merged(techStack, deps, x.configs)
    ensures x.endpoints == SortByFileLine(WalkEndpoints(e, directory, ActiveLangs(distro, EndpointPatterns), walk))
    ensures StrictlySorted(x.ajax) && forall a :: a in x.ajax <==> a in WalkAjax(e, directory, ActiveLangs(distro, EndpointPatterns), walk)
    ensures x.configs == ConfigRun(directory, walk, e).detected && x.configSecrets == ConfigRun(directory, walk, e).secrets
    ensures forall k :: k in techStack ==> k in x.stack
    ensures forall c :: c in deps && deps[c] != {} ==> c in x.stack && deps[c] <= x.stack[c]
    ensures forall i :: 0 <= i < |x.configs| ==> Category(x.configs[i].0) in x.stack && x.configs[i].0 in x.stack[Category(x.configs[i].0)]
  {
    var endpoints, ajax := Endpoints(directory, ActiveLangs(distro, EndpointPatterns), walk, e);
    var configs, configSecrets := Configs(directory, walk, e);
    var merged := Merge(techStack, deps, configs);
    MergeOnlyAdds(techStack, deps, configs);
    x := Results(distro, sloc, merged, deps, None, endpoints, ajax, configs, configSecrets);
  }

  /**
   * Steps 1 to 8 of the command on one directory: the analyzers are run in
   * order and their findings merged; None when the dependency analyzer
   * raises, which nothing catches. The walk, the regex engine, glob and the
   * JSON parser stand for the file system and the libraries; the program
   * passes TECHNOLOGIES_BY_LANG and TECHNOLOGY_DETECTORS as `catalog` and
   * `table`, which meet the requirement (Patterns.CatalogCategoriesKnown).
   */
  method Analyze(directory: string, walk: seq<Step>, e: Engine, glob: Glob, parse: JsonParser, catalog: Catalog, table: DetectorTable)
    returns (r: Option<Results>)
    requires KnownCategories(catalog)
    ensures r.None? <==> Dependencies(directory, MainLang(Distro(directory, walk)).GetOr(""), walk, parse).None?
    ensures r.Some? ==> Sections(r.value, directory, walk, e, glob, parse, catalog, table)
  {
    var distro, sloc := Languages(directory, walk);
    var techStack, deps := Technologies(directory, MainLang(distro), walk, e, glob, parse, catalog, table);
    if deps.None? {
      return None;
    }
    var x := Assemble(directory, walk, e, distro, sloc, techStack, deps.value);
    r := Some(x);
  }

  /**
   * What a report of the command always shows: languages exactly when some
   * file was read, every stack category, every dependency and every
   * configuration technology inside the stack.
   */
  lemma SectionsMerged(x: Results, directory: string, walk: seq<Step>, e: Engine, glob: Glob, parse: JsonParser,
                       catalog: Catalog, table: DetectorTable)
    requires KnownCategories(catalog)
    requires Sections(x, directory, walk, e, glob, parse, catalog, table)
    ensures x.languages == [] <==> ReadFiles(directory, walk) == []
    ensures forall k :: k in ResultKeys ==> k in x.stack
    ensures forall c :: c in x.dependencies && x.dependencies[c] != {} ==> c in x.stack && x.dependencies[c] <= x.stack[c]
    ensures forall i :: 0 <= i < |x.configs| ==> Category(x.configs[i].0) in x.stack && x.configs[i].0 in x.stack[Category(x.configs[i].0)]
  {
    LanguagesPresent(directory, walk);
    var lang := MainLang(x.languages).GetOr("");
    MergeOnlyAdds(LangStack(AsWritten, directory, lang, walk, e, glob, catalog, table), x.dependencies, x.configs);
  }

  /** The distribution is empty exactly when no file could be read. */
  lemma LanguagesPresent(directory: string, walk: seq<Step>)
    ensures var files := ReadFiles(directory, walk);
      files != [] ==> Shares(Tally(files, LangExtensions, false), |files|) != []
  {
    var files := ReadFiles(directory, walk);
    if files != [] {
      TallyKeys(files, LangExtensions, false);
      var c := Tally(files, LangExtensions, false);
      assert LangsOf(files, LangExtensions)[0] in LangsOf(files, LangExtensions);
      assert |Keys(c)| > 0;
    }
  }
}
