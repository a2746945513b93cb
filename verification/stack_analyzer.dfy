/**
 * The stack analyzer: builds, for the main language, a list of technologies
 * each with the detectors that reveal it, then runs them and collects the
 * technologies found under six result categories.
 */
module StackAnalysis {
  import opened Wrappers
  import opened Text
  import opened Regex
  import opened FileTree
  import opened Patterns
  import opened FileDetection
  import opened CodeDetection

  /** A detector instance, by what it is built from: a file detector over configs, or a code detector over a pattern text. */
  datatype Probe = FileProbe(configs: seq<DetectorConfig>) | CodeProbe(pattern: string)

  /** One `(category_key, tech, instances)` entry of the detector list. */
  datatype Entry = Entry(category: string, tech: string, probes: seq<Probe>)

  /** The keys of the result, in order. */
  const ResultKeys: seq<string> := ["backend", "frontend", "database", "build_tools", "testing", "devops"]

  /** `category_map`: catalog category keys to result keys. */
  const CategoryMap: seq<(string, string)> := [
    ("frameworks", "backend"), ("frontend", "frontend"), ("databases", "database"),
    ("build_tools", "build_tools"), ("test_frameworks", "testing"), ("devops", "devops")]

  /** `category_map.get(category_key, category_key)` */
  function Mapped(key: string): string {
    Lookup(CategoryMap, key).GetOr(key)
  }

  /** Every result key starts with no technology. */
  function EmptyResult(): (m: map<string, set<string>>)
    ensures forall k :: k in m <==> k in ResultKeys
    ensures forall k :: k in m ==> m[k] == {}
  {
    map k | k in ResultKeys :: {}
  }

  /** A JS_TECH_DETECTION `type` to a category: frontend, backend, or else database. */
  function JsCategory(kind: string): (c: string)
    ensures c in {"frontend", "backend", "database"}
    ensures kind in {"frontend", "backend", "database"} ==> c == kind
  {
    if kind == "frontend" then "frontend" else if kind == "backend" then "backend" else "database"
  }

  /** `r'"(?:' + '|'.join(packages) + r')"'`: any of the package names between double quotes. */
  function PackagePattern(packages: seq<string>): string {
    "\"(?:" + JoinWith(packages, "|") + ")\""
  }

  function JsEntries(js: seq<JsTech>): seq<Entry> {
    if js == [] then []
    else
      var t := js[|js| - 1];
      JsEntries(js[..|js| - 1]) + [Entry(JsCategory(t.kind), t.name, [CodeProbe(PackagePattern(t.packages))])]
  }

  /** The instance a config gives: a file detector for file and dir, a code detector for code, none otherwise. */
  function ProbeOf(cfg: DetectorConfig): Option<Probe> {
    if cfg.kind == Some("file") || cfg.kind == Some("dir") then Some(FileProbe([cfg]))
    else if cfg.kind == Some("code") && cfg.pattern.Some? && cfg.pattern.value.PatternText? then
      Some(CodeProbe(cfg.pattern.value.source))
    else None
  }

  function ProbesOf(cfgs: seq<DetectorConfig>): seq<Probe> {
    if cfgs == [] then []
    else
      ProbesOf(cfgs[..|cfgs| - 1])
      + match ProbeOf(cfgs[|cfgs| - 1]) case None => [] case Some(p) => [p]
  }

  /** A table of TECHNOLOGY_DETECTORS's shape: technology to configs. */
  type DetectorTable = seq<(string, seq<DetectorConfig>)>

  /** A table of TECHNOLOGIES_BY_LANG's shape: language to `(category key, technologies)` pairs. */
  type Catalog = seq<(string, seq<(string, seq<string>)>)>

  /** The configs the table holds for a technology, none when it has no entry. */
  function ConfigsFor(tech: string, table: DetectorTable): seq<DetectorConfig> {
    Lookup(table, tech).GetOr([])
  }

  /** The entries of one catalog category: each technology with at least one instance. */
  function TechEntries(categoryKey: string, techs: seq<string>, table: DetectorTable): seq<Entry> {
    if techs == [] then []
    else
      var t := techs[|techs| - 1];
      var ps := ProbesOf(ConfigsFor(t, table));
      TechEntries(categoryKey, techs[..|techs| - 1], table) + (if ps != [] then [Entry(categoryKey, t, ps)] else [])
  }

  function CatalogEntries(cats: seq<(string, seq<string>)>, table: DetectorTable): seq<Entry> {
    if cats == [] then []
    else CatalogEntries(cats[..|cats| - 1], table) + TechEntries(cats[|cats| - 1].0, cats[|cats| - 1].1, table)
  }

  /**
   * The entries one `prepare_detectors()` call appends: the JS block for JS
   * and TS, then the catalog of the language (JS_TECH_DETECTION,
   * TECHNOLOGIES_BY_LANG and TECHNOLOGY_DETECTORS are `js`, `catalog` and `table`).
   */
  function Planned(lang: string, js: seq<JsTech>, catalog: Catalog, table: DetectorTable): seq<Entry> {
    (if JsLang(lang) then JsEntries(js) else [])
    + CatalogEntries(Lookup(catalog, lang).GetOr([]), table)
  }

  /**
   * A probe reports something: a file detector, in variant `v`, returns
   * found without raising; a code detector returns a record.
   */
  predicate ProbeFires(v: Variant, directory: string, walk: seq<Step>, e: Engine, glob: Glob, p: Probe) {
    match p
    case FileProbe(cfgs) =>
      var out := Outcome(v, directory, walk, e, glob, cfgs);
      out.Returned? && out.found
    case CodeProbe(src) => TreeHits(e, Regex(src, true), directory, walk) != []
  }

  predicate AnyFires(v: Variant, directory: string, walk: seq<Step>, e: Engine, glob: Glob, ps: seq<Probe>) {
    exists i :: 0 <= i < |ps| && ProbeFires(v, directory, walk, e, glob, ps[i])
  }

  predicate AllMapped(entries: seq<Entry>, res: map<string, set<string>>) {
    forall i :: 0 <= i < |entries| ==> Mapped(entries[i].category) in res
  }

  /** The result after the entries: each technology with a firing instance is added under its mapped category. */
  function Stack(v: Variant, res: map<string, set<string>>, directory: string, walk: seq<Step>, e: Engine, glob: Glob, entries: seq<Entry>): (r: map<string, set<string>>)
    requires AllMapped(entries, res)
    ensures r.Keys == res.Keys
  {
    if entries == [] then res
    else
      var prev := Stack(v, res, directory, walk, e, glob, entries[..|entries| - 1]);
      var x := entries[|entries| - 1];
      var k := Mapped(x.category);
      if AnyFires(v, directory, walk, e, glob, x.probes) then prev[k := prev[k] + {x.tech}] else prev
  }

  class StackAnalyzer {
    const directory: string
    const mainLang: string
    var detectors: seq<Entry>

    /** Every entry's category maps to a result key, so `result[mapped]` never fails. */
    predicate Valid()
      reads this
    {
      AllMapped(detectors, EmptyResult())
    }

    constructor (directory: string, mainLang: string)
      ensures this.directory == directory && this.mainLang == mainLang && detectors == []
      ensures Valid()
    {
      this.directory := directory;
      this.mainLang := mainLang;
      detectors := [];
    }

    /** The instances of one technology's configs. */
    static method BuildProbes(cfgs: seq<DetectorConfig>) returns (ps: seq<Probe>)
      ensures ps == ProbesOf(cfgs)
    {
      ps := [];
      for k := 0 to |cfgs|
        invariant ps == ProbesOf(cfgs[..k])
      {
        assert cfgs[..k + 1][..k] == cfgs[..k];
        var cfg := cfgs[k];
        var t := cfg.kind;
        if t == Some("file") || t == Some("dir") {
          ps := ps + [FileProbe([cfg])];
        } else if t == Some("code") && cfg.pattern.Some? && cfg.pattern.value.PatternText? {
          ps := ps + [CodeProbe(cfg.pattern.value.source)];
        }
      }
      assert cfgs[..|cfgs|] == cfgs;
    }

    method AddTechs(categoryKey: string, techs: seq<string>, table: DetectorTable)
      modifies this
      ensures detectors == old(detectors) + TechEntries(categoryKey, techs, table)
    {
      ghost var start := detectors;
      for j := 0 to |techs|
        invariant detectors == start + TechEntries(categoryKey, techs[..j], table)
      {
        assert techs[..j + 1][..j] == techs[..j];
        var configs := Lookup(table, techs[j]).GetOr([]);
        if configs != [] {
          var instances := BuildProbes(configs);
          if instances != [] {
            detectors := detectors + [Entry(categoryKey, techs[j], instances)];
          }
        }
      }
      assert techs[..|techs|] == techs;
    }

    /** The JS/TS block: one code detector per JS_TECH_DETECTION entry, over its package names. */
    method PrepareJs(js: seq<JsTech>)
      modifies this
      ensures detectors == old(detectors) + (if JsLang(mainLang) then JsEntries(js) else [])
    {
      if mainLang == "JavaScript" || mainLang == "TypeScript" {
        for i := 0 to |js|
          invariant detectors == old(detectors) + JsEntries(js[..i])
        {
          assert js[..i + 1][..i] == js[..i];
          var info := js[i];
          var cat := if info.kind == "frontend" then "frontend" else if info.kind == "backend" then "backend" else "database";
          var pattern := "\"(?:" + JoinWith(info.packages, "|") + ")\"";
          detectors := detectors + [Entry(cat, info.name, [CodeProbe(pattern)])];
        }
        assert js[..|js|] == js;
      }
    }

    /** The catalog block: every category of the language, in order. */
    method PrepareCatalog(langTechs: seq<(string, seq<string>)>, table: DetectorTable)
      modifies this
      ensures detectors == old(detectors) + CatalogEntries(langTechs, table)
    {
      for c := 0 to |langTechs|
        invariant detectors == old(detectors) + CatalogEntries(langTechs[..c], table)
      {
        assert langTechs[..c + 1][..c] == langTechs[..c];
        AddTechs(langTechs[c].0, langTechs[c].1, table);
      }
      assert langTechs[..|langTechs|] == langTechs;
    }

    /**
     * `prepare_detectors()`: appends the JS/TS package detectors, then one
     * entry per catalog technology of the main language that has instances.
     * The list is not cleared, so a second call appends the same entries again.
     */
    method PrepareDetectors()
      requires Valid()
      modifies this
      ensures detectors == old(detectors) + Planned(mainLang, JsTechDetection, TechnologiesByLang, TechnologyDetectors)
      ensures Valid()
    {
      CatalogCategoriesKnown();
      PrepareFrom(JsTechDetection, TechnologiesByLang, TechnologyDetectors);
    }

    /** `prepare_detectors()` over given tables whose category keys the category map knows. */
    method PrepareFrom(js: seq<JsTech>, catalog: Catalog, table: DetectorTable)
      requires Valid()
      requires KnownCategories(catalog)
      modifies this
      ensures detectors == old(detectors) + Planned(mainLang, js, catalog, table)
      ensures Valid()
    {
      ghost var d0 := detectors;
      PrepareJs(js);
      ghost var a := if JsLang(mainLang) then JsEntries(js) else [];
      var langTechs := Lookup(catalog, mainLang).GetOr([]);
      PrepareCatalog(langTechs, table);
      ghost var b := CatalogEntries(langTechs, table);
      AppendAssoc(d0, a, b);
      PlannedMapped(mainLang, js, catalog, table);
      AllMappedAppend(d0, Planned(mainLang, js, catalog, table), EmptyResult());
    }

    /** One instance's `detect()`, built fresh, with the file detector of variant `v`; an exception counts as not found. */
    method RunProbe(v: Variant, walk: seq<Step>, e: Engine, glob: Glob, p: Probe) returns (found: bool)
      ensures found == ProbeFires(v, directory, walk, e, glob, p)
    {
      match p
      case FileProbe(cfgs) =>
        var det := new FileDetector(directory, cfgs);
        var out: DetectResult;
        if v == AsWritten {
          out := det.DetectAsWritten(walk, e, glob);
        } else {
          out := det.Detect(walk, e, glob);
        }
        found := out.Returned? && out.found;
      case CodeProbe(src) =>
        var det := new CodeDetector(directory, src);
        var hits := det.Detect(walk, e);
        found := hits != [];
    }

    /** The instances of one entry in order, stopping at the first that reports something. */
    method Fires(v: Variant, walk: seq<Step>, e: Engine, glob: Glob, ps: seq<Probe>) returns (found: bool)
      ensures found == AnyFires(v, directory, walk, e, glob, ps)
    {
      found := false;
      var k := 0;
      while k < |ps| && !found
        invariant 0 <= k <= |ps|
        invariant found ==> AnyFires(v, directory, walk, e, glob, ps)
        invariant !found ==> forall i :: 0 <= i < k ==> !ProbeFires(v, directory, walk, e, glob, ps[i])
      {
        found := RunProbe(v, walk, e, glob, ps[k]);
        if found {
          assert ProbeFires(v, directory, walk, e, glob, ps[k]);
        }
        k := k + 1;
      }
    }

    /**
     * `analyze_stack()`: the six categories with the technologies found
     * under each. The program runs it with the file detector `AsWritten`.
     */
    method AnalyzeStack(v: Variant, walk: seq<Step>, e: Engine, glob: Glob) returns (result: map<string, set<string>>)
      requires Valid()
      ensures result == Stack(v, EmptyResult(), directory, walk, e, glob, detectors)
      ensures forall k :: k in result <==> k in ResultKeys
    {
      result := EmptyResult();
      for i := 0 to |detectors|
        invariant AllMapped(detectors[..i], EmptyResult())
        invariant result == Stack(v, EmptyResult(), directory, walk, e, glob, detectors[..i])
      {
        assert detectors[..i + 1][..i] == detectors[..i];
        var x := detectors[i];
        var mapped := Lookup(CategoryMap, x.category).GetOr(x.category);
        var found := Fires(v, walk, e, glob, x.probes);
        if found {
          result := result[mapped := result[mapped] + {x.tech}];
        }
      }
      assert detectors[..|detectors|] == detectors;
    }
  }

  // ---------------------------------------------------------------- the categories are known

  lemma {:induction false} TechEntriesCategory(categoryKey: string, techs: seq<string>, table: DetectorTable, x: Entry)
    requires x in TechEntries(categoryKey, techs, table)
    ensures x.category == categoryKey && x.tech in techs && x.probes == ProbesOf(ConfigsFor(x.tech, table)) != []
    decreases |techs|
  {
    var init := techs[..|techs| - 1];
    if x in TechEntries(categoryKey, init, table) {
      TechEntriesCategory(categoryKey, init, table, x);
    }
  }

  /** A catalog entry comes from one category of the language, names one of its technologies and holds that technology's instances. */
  lemma {:induction false} CatalogEntriesCategory(cats: seq<(string, seq<string>)>, table: DetectorTable, x: Entry)
    requires x in CatalogEntries(cats, table)
    ensures exists j :: 0 <= j < |cats| && x.category == cats[j].0 && x.tech in cats[j].1
    ensures x.probes == ProbesOf(ConfigsFor(x.tech, table)) != []
    decreases |cats|
  {
    var init := cats[..|cats| - 1];
    if x in CatalogEntries(init, table) {
      CatalogEntriesCategory(init, table, x);
      var j :| 0 <= j < |init| && x.category == init[j].0 && x.tech in init[j].1;
      assert cats[j] == init[j];
    } else {
      TechEntriesCategory(cats[|cats| - 1].0, cats[|cats| - 1].1, table, x);
    }
  }

  lemma AllMappedAppend(a: seq<Entry>, b: seq<Entry>, res: map<string, set<string>>)
    requires AllMapped(a, res)
    requires forall x :: x in b ==> Mapped(x.category) in res
    ensures AllMapped(a + b, res)
  {
    forall i | 0 <= i < |a + b| ensures Mapped((a + b)[i].category) in res {
      if i >= |a| {
        assert (a + b)[i] == b[i - |a|];
      }
    }
  }

  lemma {:induction false} JsEntriesCategory(js: seq<JsTech>, x: Entry)
    requires x in JsEntries(js)
    ensures x.category in {"frontend", "backend", "database"}
    decreases |js|
  {
    if x in JsEntries(js[..|js| - 1]) {
      JsEntriesCategory(js[..|js| - 1], x);
    }
  }

  /** Every category key of the catalog is one `category_map` covers, so `result[mapped]` never raises KeyError. */
  predicate KnownCategories(catalog: Catalog) {
    forall i, j :: 0 <= i < |catalog| && 0 <= j < |catalog[i].1| ==> catalog[i].1[j].0 in CatalogCategoryKeys
  }

  /** Every entry `prepare_detectors()` appends maps to one of the six result keys, given a catalog whose category keys the map knows. */
  lemma PlannedMapped(lang: string, js: seq<JsTech>, catalog: Catalog, table: DetectorTable)
    requires KnownCategories(catalog)
    ensures forall x :: x in Planned(lang, js, catalog, table) ==> Mapped(x.category) in EmptyResult()
  {
    var cats := Lookup(catalog, lang);
    var pre: seq<Entry> := if JsLang(lang) then JsEntries(js) else [];
    var rest := CatalogEntries(cats.GetOr([]), table);
    assert Planned(lang, js, catalog, table) == pre + rest;
    forall x | x in pre + rest ensures Mapped(x.category) in EmptyResult() {
      if x in pre {
        JsEntriesCategory(js, x);
      } else {
        CatalogEntriesCategory(cats.GetOr([]), table, x);
        var j :| 0 <= j < |cats.value| && x.category == cats.value[j].0 && x.tech in cats.value[j].1;
        var i :| 0 <= i < |catalog| && catalog[i] == (lang, cats.value);
        assert catalog[i].1[j].0 in CatalogCategoryKeys;
      }
      MappedKey(x.category);
    }
  }

  /** The category keys of the catalog and the JS types all map to result keys. */
  lemma MappedKey(c: string)
    requires c in CatalogCategoryKeys || c in {"frontend", "backend", "database"}
    ensures Mapped(c) in ResultKeys
  {
  }

  // ---------------------------------------------------------------- what is found

  /** Entry `x` reports `tech` under result key `k`. */
  predicate Reports(v: Variant, directory: string, walk: seq<Step>, e: Engine, glob: Glob, x: Entry, k: string, tech: string) {
    Mapped(x.category) == k && x.tech == tech && AnyFires(v, directory, walk, e, glob, x.probes)
  }

  lemma {:induction false} StackMember(v: Variant, res: map<string, set<string>>, directory: string, walk: seq<Step>, e: Engine, glob: Glob,
                                       entries: seq<Entry>, n: nat, k: string, tech: string)
    requires n <= |entries| && AllMapped(entries, res) && k in res
    ensures AllMapped(entries[..n], res)
    ensures tech in Stack(v, res, directory, walk, e, glob, entries[..n])[k] <==>
      tech in res[k] || exists i :: 0 <= i < n && Reports(v, directory, walk, e, glob, entries[i], k, tech)
    decreases n
  {
    AllMappedPrefix(entries, res, n);
    if n > 0 {
      var pre := entries[..n];
      assert pre[..n - 1] == entries[..n - 1];
      assert pre[n - 1] == entries[n - 1];
      StackMember(v, res, directory, walk, e, glob, entries, n - 1, k, tech);
      var x := entries[n - 1];
      var prev := Stack(v, res, directory, walk, e, glob, entries[..n - 1]);
      assert Stack(v, res, directory, walk, e, glob, pre)
        == if AnyFires(v, directory, walk, e, glob, x.probes) then prev[Mapped(x.category) := prev[Mapped(x.category)] + {x.tech}] else prev;
      ExistsBelow(entries, n, y => Reports(v, directory, walk, e, glob, y, k, tech));
    }
  }

  lemma AllMappedPrefix(entries: seq<Entry>, res: map<string, set<string>>, n: nat)
    requires n <= |entries| && AllMapped(entries, res)
    ensures AllMapped(entries[..n], res)
  {
    forall i | 0 <= i < n ensures Mapped(entries[..n][i].category) in res {
      assert entries[..n][i] == entries[i];
    }
  }

  /**
   * A technology is reported under a result key exactly when some entry
   * for it maps to that key and one of its instances reports something.
   */
  lemma AnalyzeStackIff(v: Variant, directory: string, walk: seq<Step>, e: Engine, glob: Glob, entries: seq<Entry>, k: string, tech: string)
    requires AllMapped(entries, EmptyResult()) && k in ResultKeys
    ensures tech in Stack(v, EmptyResult(), directory, walk, e, glob, entries)[k] <==>
      exists i :: 0 <= i < |entries| && Reports(v, directory, walk, e, glob, entries[i], k, tech)
  {
    StackMember(v, EmptyResult(), directory, walk, e, glob, entries, |entries|, k, tech);
    assert entries[..|entries|] == entries;
  }

  /** The JS block gives, per JS_TECH_DETECTION entry in order, its category, its name and one code detector over its package names. */
  lemma {:induction false} JsEntriesIndex(js: seq<JsTech>)
    ensures |JsEntries(js)| == |js|
    ensures forall i :: 0 <= i < |js| ==>
      JsEntries(js)[i] == Entry(JsCategory(js[i].kind), js[i].name, [CodeProbe(PackagePattern(js[i].packages))])
    decreases |js|
  {
    if js != [] {
      var init := js[..|js| - 1];
      JsEntriesIndex(init);
      forall i | 0 <= i < |init| ensures init[i] == js[i] { }
    }
  }

  // ---------------------------------------------------------------- the stack of a fresh analyzer

  /** The entries `prepare_detectors()` appends for a language all map to result keys. */
  lemma PlannedAllMapped(lang: string, js: seq<JsTech>, catalog: Catalog, table: DetectorTable)
    requires KnownCategories(catalog)
    ensures AllMapped(Planned(lang, js, catalog, table), EmptyResult())
  {
    var planned := Planned(lang, js, catalog, table);
    PlannedMapped(lang, js, catalog, table);
    AllMappedAppend([], planned, EmptyResult());
    assert [] + planned == planned;
  }

  /**
   * What `analyze_stack()` returns on a fresh analyzer for `lang` after one
   * `prepare_detectors()` over the given catalog and detector table.
   */
  function LangStack(v: Variant, directory: string, lang: string, walk: seq<Step>, e: Engine, glob: Glob, catalog: Catalog, table: DetectorTable): (r: map<string, set<string>>)
    requires KnownCategories(catalog)
    ensures forall k :: k in r <==> k in ResultKeys
  {
    PlannedAllMapped(lang, JsTechDetection, catalog, table);
    Stack(v, EmptyResult(), directory, walk, e, glob, Planned(lang, JsTechDetection, catalog, table))
  }

  // ---------------------------------------------------------------- with the file detector as written

  /** The code instances of a list, in order. */
  function CodeProbes(ps: seq<Probe>): (r: seq<Probe>)
    ensures forall p :: p in r <==> p in ps && p.CodeProbe?
  {
    if ps == [] then []
    else CodeProbes(ps[..|ps| - 1]) + (if ps[|ps| - 1].CodeProbe? then [ps[|ps| - 1]] else [])
  }

  /** The entries with their file instances dropped. */
  function CodeOnly(entries: seq<Entry>): (r: seq<Entry>)
    ensures |r| == |entries|
  {
    if entries == [] then []
    else
      var x := entries[|entries| - 1];
      CodeOnly(entries[..|entries| - 1]) + [Entry(x.category, x.tech, CodeProbes(x.probes))]
  }

  /** As written, an instance reports something exactly when it is a code instance that does. */
  lemma AsWrittenProbe(directory: string, walk: seq<Step>, e: Engine, glob: Glob, p: Probe)
    ensures ProbeFires(AsWritten, directory, walk, e, glob, p) <==> p.CodeProbe? && ProbeFires(Corrected, directory, walk, e, glob, p)
  {
  }

  /** As written, a list of instances reports something exactly when its code instances do. */
  lemma AsWrittenAnyFires(directory: string, walk: seq<Step>, e: Engine, glob: Glob, ps: seq<Probe>)
    ensures AnyFires(AsWritten, directory, walk, e, glob, ps) <==> AnyFires(Corrected, directory, walk, e, glob, CodeProbes(ps))
  {
    var cs := CodeProbes(ps);
    if AnyFires(AsWritten, directory, walk, e, glob, ps) {
      var i :| 0 <= i < |ps| && ProbeFires(AsWritten, directory, walk, e, glob, ps[i]);
      AsWrittenProbe(directory, walk, e, glob, ps[i]);
      assert ps[i] in cs;
      var j :| 0 <= j < |cs| && cs[j] == ps[i];
      assert ProbeFires(Corrected, directory, walk, e, glob, cs[j]);
    }
    if AnyFires(Corrected, directory, walk, e, glob, cs) {
      var j :| 0 <= j < |cs| && ProbeFires(Corrected, directory, walk, e, glob, cs[j]);
      assert cs[j] in ps;
      var i :| 0 <= i < |ps| && ps[i] == cs[j];
      AsWrittenProbe(directory, walk, e, glob, ps[i]);
      assert ProbeFires(AsWritten, directory, walk, e, glob, ps[i]);
    }
  }

  lemma {:induction false} CodeOnlyCategories(entries: seq<Entry>)
    ensures forall i :: 0 <= i < |entries| ==> CodeOnly(entries)[i].category == entries[i].category
    decreases |entries|
  {
    if entries != [] {
      var init := entries[..|entries| - 1];
      CodeOnlyCategories(init);
      forall i | 0 <= i < |init| ensures init[i] == entries[i] { }
    }
  }

  /**
   * The stack the program computes, with the file detector as written, is
   * the stack the corrected detector would give with every file and
   * directory instance removed.
   */
  lemma {:induction false} AsWrittenStack(res: map<string, set<string>>, directory: string, walk: seq<Step>, e: Engine, glob: Glob, entries: seq<Entry>)
    requires AllMapped(entries, res)
    ensures AllMapped(CodeOnly(entries), res)
    ensures Stack(AsWritten, res, directory, walk, e, glob, entries) == Stack(Corrected, res, directory, walk, e, glob, CodeOnly(entries))
    decreases |entries|
  {
    CodeOnlyCategories(entries);
    if entries != [] {
      var init := entries[..|entries| - 1];
      var x := entries[|entries| - 1];
      AllMappedPrefix(entries, res, |entries| - 1);
      AsWrittenStack(res, directory, walk, e, glob, init);
      AsWrittenAnyFires(directory, walk, e, glob, x.probes);
      var c := CodeOnly(entries);
      assert c[..|c| - 1] == CodeOnly(init);
    }
  }

  /**
   * With the file detector as written, a technology whose every entry has
   * only file and directory instances (Maven, Gradle, Docker, ...) is never
   * reported.
   */
  lemma FileOnlyNeverFoundAsWritten(directory: string, walk: seq<Step>, e: Engine, glob: Glob, entries: seq<Entry>, k: string, tech: string)
    requires AllMapped(entries, EmptyResult()) && k in ResultKeys
    requires forall i, j :: 0 <= i < |entries| && entries[i].tech == tech && 0 <= j < |entries[i].probes| ==> entries[i].probes[j].FileProbe?
    ensures tech !in Stack(AsWritten, EmptyResult(), directory, walk, e, glob, entries)[k]
  {
    AnalyzeStackIff(AsWritten, directory, walk, e, glob, entries, k, tech);
  }

  /** A directory `d` holding only an empty `pom.xml`, as the walk, glob and regex engine see it. */
  function PomWalk(): seq<Step> {
    [Step("", [FileEntry("pom.xml", Some(""))])]
  }

  function PomGlob(pattern: string): seq<string> {
    ["d/pom.xml"]
  }

  function NoMatches(r: Regex, text: string): seq<Match> {
    []
  }

  /** In that directory the `pom.xml` instance fires with the corrected detector and not as written. */
  lemma PomProbe()
    ensures ProbeFires(Corrected, "d", PomWalk(), NoMatches, PomGlob, FileProbe([FileCfg("pom.xml")]))
    ensures !ProbeFires(AsWritten, "d", PomWalk(), NoMatches, PomGlob, FileProbe([FileCfg("pom.xml")]))
  {
    var walk := PomWalk();
    var cfg := FileCfg("pom.xml");
    assert Candidates("d", walk, NoMatches, PomGlob, cfg) == ["d/pom.xml"];
    assert FullPath("d", walk[0], walk[0].files[0]) == "d/pom.xml";
    assert FindIn("d", walk[0], walk[0].files, "d/pom.xml").Some?;
    assert IsFile("d", walk, "d/pom.xml");
    assert [cfg][..0] == [];
    assert ["d/pom.xml"][..0] == [];
    assert FeedAll("d", walk, NoMatches, PomGlob, [cfg]) == Scan([FileHit("d/pom.xml", None)], false);
  }

  /**
   * Maven's `pom.xml` probe wherever the corrected detector finds `pom.xml`
   * (PomProbe gives such a directory): the corrected detector adds Maven
   * under build_tools, the one as written does not.
   */
  lemma MavenMissedAsWritten(res: map<string, set<string>>, directory: string, walk: seq<Step>, e: Engine, glob: Glob)
    requires "build_tools" in res && "Maven" !in res["build_tools"]
    requires ProbeFires(Corrected, directory, walk, e, glob, FileProbe([FileCfg("pom.xml")]))
    ensures var entries := [Entry("build_tools", "Maven", [FileProbe([FileCfg("pom.xml")])])];
      AllMapped(entries, res)
      && "Maven" in Stack(Corrected, res, directory, walk, e, glob, entries)["build_tools"]
      && "Maven" !in Stack(AsWritten, res, directory, walk, e, glob, entries)["build_tools"]
  {
    var p := FileProbe([FileCfg("pom.xml")]);
    var entries := [Entry("build_tools", "Maven", [p])];
    assert Mapped("build_tools") == "build_tools";
    assert entries[..0] == [];
    assert entries[0].probes[0] == p;
    assert AnyFires(Corrected, directory, walk, e, glob, entries[0].probes);
  }
}
