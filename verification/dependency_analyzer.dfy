/**
 * The dependency analyzer: looks for technologies in the dependency
 * manifests at the top of the directory, by text search or by package keys
 * of a JSON manifest, and for JS/TS projects in package.json's dependencies.
 */
module DependencyAnalysis {
  import opened Wrappers
  import opened Text
  import opened FileTree
  import opened Patterns

  /**
   * A JSON value, as far as `analyze()` looks into it: an object by its
   * member names, an array by its string elements, a string, or any other
   * scalar (a number, a boolean or null).
   */
  datatype JsonValue = JObject(keys: set<string>) | JArray(strings: set<string>) | JString(text: string) | JScalar

  /** A parsed document: a top-level object by its members, or a top-level value of any other kind. */
  datatype JsonDoc = JsonDoc(members: map<string, JsonValue>) | NotObject

  /** `json.load`: None when the text is not valid JSON. */
  type JsonParser = string -> Option<JsonDoc>

  const EmptyDoc: JsonDoc := JsonDoc(map[])

  /** A manifest loaded as JSON; a file that cannot be opened or parsed gives `{}`. */
  function LoadJson(directory: string, walk: seq<Step>, parse: JsonParser, path: string): JsonDoc {
    match ReadFile(directory, walk, path)
    case None => EmptyDoc
    case Some(text) => parse(text).GetOr(EmptyDoc)
  }

  /** `data.get(key, {})`: None when the document is not a dict, where `get` raises AttributeError. */
  function Member(doc: JsonDoc, key: string): (r: Option<JsonValue>)
    ensures r.None? <==> doc.NotObject?
    ensures doc.JsonDoc? && key !in doc.members ==> r == Some(JObject({}))
  {
    match doc
    case NotObject => None
    case JsonDoc(members) => Some(if key in members then members[key] else JObject({}))
  }

  /**
   * `pkg in value`: a key of a dict, an element of a list, a substring of a
   * string; None for any other value, where `in` raises TypeError.
   */
  function In(pkg: string, value: JsonValue): (r: Option<bool>)
    ensures r.None? <==> value.JScalar?
  {
    match value
    case JObject(keys) => Some(pkg in keys)
    case JArray(strings) => Some(pkg in strings)
    case JString(text) => Some(Contains(text, pkg))
    case JScalar => None
  }

  /** `tech_stack[category].add(tech)` on a defaultdict of sets. */
  function Add(m: map<string, set<string>>, category: string, tech: string): (r: map<string, set<string>>)
    ensures r.Keys == m.Keys + {category}
    ensures tech in r[category]
    ensures forall k :: k in m ==> m[k] <= r[k]
  {
    m[category := (if category in m then m[category] else {}) + {tech}]
  }

  /** `rest[0] or patterns`: the display name unless it is missing or empty. */
  function DisplayName(needle: string, display: Option<string>): string {
    if display.Some? && display.value != "" then display.value else needle
  }

  /** The packages of `keys` found in `require` add their technologies, in order. */
  function KeyHits(m: map<string, set<string>>, category: string, require: JsonValue, keys: seq<(string, string)>): map<string, set<string>> {
    if keys == [] then m
    else
      var prev := KeyHits(m, category, require, keys[..|keys| - 1]);
      var kt := keys[|keys| - 1];
      if In(kt.0, require) == Some(true) then Add(prev, category, kt.1) else prev
  }

  /** Adds the technology of every pattern key present in `require`; None when the first membership test raises. */
  function RequireHits(m: map<string, set<string>>, category: string, require: JsonValue, keys: seq<(string, string)>): Option<map<string, set<string>>> {
    if require.JScalar? && keys != [] then None else Some(KeyHits(m, category, require, keys))
  }

  /** The entry raises: a present JSON manifest that is not an object, or whose `require` is a scalar tested against a package. */
  predicate SpecRaises(directory: string, walk: seq<Step>, parse: JsonParser, spec: DependencySpec) {
    var path := Join(directory, spec.file);
    && Exists(directory, walk, path)
    && spec.KeySpec?
    && match Member(LoadJson(directory, walk, parse, path), "require")
       case None => true
       case Some(require) => require.JScalar? && spec.keys != []
  }

  /**
   * One DEPENDENCY_PATTERNS entry, None when it raises: skipped when its file
   * does not exist; a key entry adds the technology of every key present in
   * the manifest's `require`; a text entry adds its technology when the
   * lower-cased file contains the lower-cased needle, and skips a file it
   * cannot read.
   */
  function SpecHits(m: map<string, set<string>>, directory: string, walk: seq<Step>, parse: JsonParser, spec: DependencySpec): (r: Option<map<string, set<string>>>)
    ensures r.None? <==> SpecRaises(directory, walk, parse, spec)
  {
    var path := Join(directory, spec.file);
    if !Exists(directory, walk, path) then Some(m)
    else match spec
      case KeySpec(_, keys, category) =>
        (match Member(LoadJson(directory, walk, parse, path), "require")
         case None => None
         case Some(require) => RequireHits(m, category, require, keys))
      case TextSpec(_, needle, category, display) =>
        match ReadFile(directory, walk, path)
        case None => Some(m)
        case Some(text) =>
          Some(if Contains(Lower(text), Lower(needle)) then Add(m, category, DisplayName(needle, display)) else m)
  }

  /** The entries in order, stopping at the first that raises. */
  function SpecsHits(m: map<string, set<string>>, directory: string, walk: seq<Step>, parse: JsonParser, specs: seq<DependencySpec>): Option<map<string, set<string>>> {
    if specs == [] then Some(m)
    else
      match SpecsHits(m, directory, walk, parse, specs[..|specs| - 1])
      case None => None
      case Some(prev) => SpecHits(prev, directory, walk, parse, specs[|specs| - 1])
  }

  /** `{**dependencies, **devDependencies}`, by package name; None when either is not a dict, where `**` raises TypeError. */
  function Deps(doc: JsonDoc): Option<set<string>> {
    match (Member(doc, "dependencies"), Member(doc, "devDependencies"))
    case (Some(JObject(a)), Some(JObject(b))) => Some(a + b)
    case _ => None
  }

  /** Some package of the list is among the dependencies. */
  predicate AnyDep(packages: seq<string>, deps: set<string>) {
    exists i :: 0 <= i < |packages| && packages[i] in deps
  }

  function JsHits(m: map<string, set<string>>, deps: set<string>, js: seq<JsTech>): map<string, set<string>> {
    if js == [] then m
    else
      var prev := JsHits(m, deps, js[..|js| - 1]);
      var t := js[|js| - 1];
      if AnyDep(t.packages, deps) then Add(prev, t.kind, t.name) else prev
  }

  /** package.json, as `analyze()` loads it. */
  function PackageJson(directory: string, walk: seq<Step>, parse: JsonParser): JsonDoc {
    LoadJson(directory, walk, parse, Join(directory, "package.json"))
  }

  /**
   * What `analyze()` gives, given the tables (DEPENDENCY_PATTERNS's entries
   * for the language, and JS_TECH_DETECTION): None when it raises.
   */
  function Analysis(directory: string, lang: string, walk: seq<Step>, parse: JsonParser, specs: seq<DependencySpec>, js: seq<JsTech>): Option<map<string, set<string>>> {
    match SpecsHits(map[], directory, walk, parse, specs)
    case None => None
    case Some(m) =>
      if !JsLang(lang) then Some(m)
      else match Deps(PackageJson(directory, walk, parse))
        case None => None
        case Some(deps) => Some(JsHits(m, deps, js))
  }

  class DependencyAnalyzer {
    const directory: string
    const mainLang: string

    constructor (directory: string, mainLang: string)
      ensures this.directory == directory && this.mainLang == mainLang
    {
      this.directory := directory;
      this.mainLang := mainLang;
    }

    /** The composer keys of one entry; the first membership test raises when `require` is a scalar. */
    static method AddKeys(m: map<string, set<string>>, category: string, require: JsonValue, keys: seq<(string, string)>)
      returns (r: Option<map<string, set<string>>>)
      ensures r == RequireHits(m, category, require, keys)
    {
      var acc := m;
      for k := 0 to |keys|
        invariant acc == KeyHits(m, category, require, keys[..k])
        invariant k > 0 ==> !require.JScalar?
      {
        assert keys[..k + 1][..k] == keys[..k];
        var present := In(keys[k].0, require);
        if present.None? {
          return None;
        }
        if present.value {
          acc := Add(acc, category, keys[k].1);
        }
      }
      assert keys[..|keys|] == keys;
      r := Some(acc);
    }

    /** The entries of the language, in order; an exception ends the call. */
    method AddSpecs(walk: seq<Step>, parse: JsonParser, specs: seq<DependencySpec>) returns (r: Option<map<string, set<string>>>)
      ensures r == SpecsHits(map[], directory, walk, parse, specs)
    {
      var m: map<string, set<string>> := map[];
      for i := 0 to |specs|
        invariant SpecsHits(map[], directory, walk, parse, specs[..i]) == Some(m)
      {
        assert specs[..i + 1][..i] == specs[..i];
        var spec := specs[i];
        var path := Join(directory, spec.file);
        if Exists(directory, walk, path) {
          match spec
          case KeySpec(_, keys, category) =>
            var data := LoadJson(directory, walk, parse, path);
            var require := Member(data, "require");
            if require.None? {
              SpecsHitsRaisedPrefix(map[], directory, walk, parse, specs, i + 1);
              return None;
            }
            var hits := AddKeys(m, category, require.value, keys);
            if hits.None? {
              SpecsHitsRaisedPrefix(map[], directory, walk, parse, specs, i + 1);
              return None;
            }
            m := hits.value;
          case TextSpec(_, needle, category, display) =>
            var text := ReadFile(directory, walk, path);
            if text.Some? && Contains(Lower(text.value), Lower(needle)) {
              m := Add(m, category, DisplayName(needle, display));
            }
        }
      }
      assert specs[..|specs|] == specs;
      r := Some(m);
    }

    static method AddJs(m: map<string, set<string>>, deps: set<string>, js: seq<JsTech>) returns (r: map<string, set<string>>)
      ensures r == JsHits(m, deps, js)
    {
      r := m;
      for i := 0 to |js|
        invariant r == JsHits(m, deps, js[..i])
      {
        assert js[..i + 1][..i] == js[..i];
        if AnyDep(js[i].packages, deps) {
          r := Add(r, js[i].kind, js[i].name);
        }
      }
      assert js[..|js|] == js;
    }

    /** `analyze()`: the technologies by category, or None when it raises. */
    method Analyze(walk: seq<Step>, parse: JsonParser) returns (techStack: Option<map<string, set<string>>>)
      ensures techStack == Analysis(directory, mainLang, walk, parse, Lookup(DependencyPatterns, mainLang).GetOr([]), JsTechDetection)
    {
      techStack := AddSpecs(walk, parse, Lookup(DependencyPatterns, mainLang).GetOr([]));
      if techStack.Some? && (mainLang == "JavaScript" || mainLang == "TypeScript") {
        var data := PackageJson(directory, walk, parse);
        var deps := Deps(data);
        if deps.None? {
          return None;
        }
        var techs := AddJs(techStack.value, deps.value, JsTechDetection);
        techStack := Some(techs);
      }
    }
  }

  // ---------------------------------------------------------------- exceptions

  lemma {:induction false} SpecsHitsRaised(m: map<string, set<string>>, directory: string, walk: seq<Step>, parse: JsonParser, specs: seq<DependencySpec>)
    ensures SpecsHits(m, directory, walk, parse, specs).None? <==> exists i :: 0 <= i < |specs| && SpecRaises(directory, walk, parse, specs[i])
    decreases |specs|
  {
    if specs != [] {
      var init := specs[..|specs| - 1];
      SpecsHitsRaised(m, directory, walk, parse, init);
      forall i | 0 <= i < |init| ensures init[i] == specs[i] { }
      ExistsBelow(specs, |specs|, spec => SpecRaises(directory, walk, parse, spec));
    }
  }

  /** Once an entry has raised, the later entries are never looked at. */
  lemma SpecsHitsRaisedPrefix(m: map<string, set<string>>, directory: string, walk: seq<Step>, parse: JsonParser, specs: seq<DependencySpec>, n: nat)
    requires n <= |specs| && SpecsHits(m, directory, walk, parse, specs[..n]).None?
    ensures SpecsHits(m, directory, walk, parse, specs).None?
  {
    SpecsHitsRaised(m, directory, walk, parse, specs[..n]);
    SpecsHitsRaised(m, directory, walk, parse, specs);
    var i :| 0 <= i < n && SpecRaises(directory, walk, parse, specs[..n][i]);
    assert specs[i] == specs[..n][i];
  }

  /**
   * `analyze()` raises exactly when one of the language's entries raises,
   * or, for JavaScript and TypeScript, package.json is not a dict or its
   * `dependencies` or `devDependencies` is present and not a dict. Nothing
   * catches these exceptions.
   */
  lemma AnalysisRaises(directory: string, lang: string, walk: seq<Step>, parse: JsonParser, specs: seq<DependencySpec>, js: seq<JsTech>)
    ensures Analysis(directory, lang, walk, parse, specs, js).None? <==>
      (exists i :: 0 <= i < |specs| && SpecRaises(directory, walk, parse, specs[i]))
      || (JsLang(lang) && Deps(PackageJson(directory, walk, parse)).None?)
  {
    SpecsHitsRaised(map[], directory, walk, parse, specs);
  }

  /** A JavaScript project whose package.json holds a top-level array makes `analyze()` raise. */
  lemma TopLevelArrayRaises(directory: string, walk: seq<Step>, parse: JsonParser, js: seq<JsTech>)
    requires ReadFile(directory, walk, Join(directory, "package.json")).Some?
    requires parse(ReadFile(directory, walk, Join(directory, "package.json")).value) == Some(NotObject)
    ensures Analysis(directory, "JavaScript", walk, parse, Lookup(DependencyPatterns, "JavaScript").GetOr([]), js).None?
  {
    AnalysisRaises(directory, "JavaScript", walk, parse, Lookup(DependencyPatterns, "JavaScript").GetOr([]), js);
  }

  // ---------------------------------------------------------------- properties

  predicate NonEmptyValues(m: map<string, set<string>>) {
    forall k :: k in m ==> m[k] != {}
  }

  lemma {:induction false} KeyHitsNonEmpty(m: map<string, set<string>>, category: string, require: JsonValue, keys: seq<(string, string)>)
    requires NonEmptyValues(m)
    ensures NonEmptyValues(KeyHits(m, category, require, keys))
    decreases |keys|
  {
    if keys != [] {
      KeyHitsNonEmpty(m, category, require, keys[..|keys| - 1]);
    }
  }

  lemma {:induction false} SpecsHitsNonEmpty(m: map<string, set<string>>, directory: string, walk: seq<Step>, parse: JsonParser, specs: seq<DependencySpec>)
    requires NonEmptyValues(m)
    ensures SpecsHits(m, directory, walk, parse, specs).Some? ==> NonEmptyValues(SpecsHits(m, directory, walk, parse, specs).value)
    decreases |specs|
  {
    if specs != [] {
      var pre := SpecsHits(m, directory, walk, parse, specs[..|specs| - 1]);
      SpecsHitsNonEmpty(m, directory, walk, parse, specs[..|specs| - 1]);
      var spec := specs[|specs| - 1];
      if pre.Some? && spec.KeySpec? {
        var require := Member(LoadJson(directory, walk, parse, Join(directory, spec.file)), "require");
        if require.Some? {
          KeyHitsNonEmpty(pre.value, spec.category, require.value, spec.keys);
        }
      }
    }
  }

  lemma {:induction false} JsHitsNonEmpty(m: map<string, set<string>>, deps: set<string>, js: seq<JsTech>)
    requires NonEmptyValues(m)
    ensures NonEmptyValues(JsHits(m, deps, js))
    decreases |js|
  {
    if js != [] {
      JsHitsNonEmpty(m, deps, js[..|js| - 1]);
    }
  }

  /** The defaultdict only gains a category when a technology is added to it: no category is ever empty. */
  lemma AnalysisNonEmpty(directory: string, lang: string, walk: seq<Step>, parse: JsonParser, specs: seq<DependencySpec>, js: seq<JsTech>)
    ensures Analysis(directory, lang, walk, parse, specs, js).Some? ==> NonEmptyValues(Analysis(directory, lang, walk, parse, specs, js).value)
  {
    SpecsHitsNonEmpty(map[], directory, walk, parse, specs);
    var m := SpecsHits(map[], directory, walk, parse, specs);
    var deps := Deps(PackageJson(directory, walk, parse));
    if m.Some? && deps.Some? {
      JsHitsNonEmpty(m.value, deps.value, js);
    }
  }

  /** `m.get(k, set())` */
  function Get(m: map<string, set<string>>, k: string): set<string> {
    if k in m then m[k] else {}
  }

  lemma AddMember(m: map<string, set<string>>, category: string, tech: string, k: string, t: string)
    ensures t in Get(Add(m, category, tech), k) <==> t in Get(m, k) || (k == category && t == tech)
  {
  }

  lemma {:induction false} KeyHitsMember(m: map<string, set<string>>, category: string, require: JsonValue, keys: seq<(string, string)>, k: string, t: string)
    ensures t in Get(KeyHits(m, category, require, keys), k) <==>
      t in Get(m, k) || (k == category && exists j :: 0 <= j < |keys| && In(keys[j].0, require) == Some(true) && keys[j].1 == t)
    decreases |keys|
  {
    if keys != [] {
      var init := keys[..|keys| - 1];
      KeyHitsMember(m, category, require, init, k, t);
      AddMember(KeyHits(m, category, require, init), category, keys[|keys| - 1].1, k, t);
      if exists j :: 0 <= j < |keys| && In(keys[j].0, require) == Some(true) && keys[j].1 == t {
        var j :| 0 <= j < |keys| && In(keys[j].0, require) == Some(true) && keys[j].1 == t;
        if j < |init| {
          assert init[j] == keys[j];
        }
      }
      if exists j :: 0 <= j < |init| && In(init[j].0, require) == Some(true) && init[j].1 == t {
        var j :| 0 <= j < |init| && In(init[j].0, require) == Some(true) && init[j].1 == t;
        assert keys[j] == init[j];
      }
    }
  }

  /** The entry gives technology `t` under category `k`. */
  predicate Gives(directory: string, walk: seq<Step>, parse: JsonParser, spec: DependencySpec, k: string, t: string) {
    var path := Join(directory, spec.file);
    Exists(directory, walk, path) && k == spec.category
    && match spec
       case KeySpec(_, keys, _) =>
         (match Member(LoadJson(directory, walk, parse, path), "require")
          case None => false
          case Some(require) => exists j :: 0 <= j < |keys| && In(keys[j].0, require) == Some(true) && keys[j].1 == t)
       case TextSpec(_, needle, _, display) =>
         ReadFile(directory, walk, path).Some?
         && Contains(Lower(ReadFile(directory, walk, path).value), Lower(needle)) && t == DisplayName(needle, display)
  }

  lemma SpecHitsMember(m: map<string, set<string>>, directory: string, walk: seq<Step>, parse: JsonParser, spec: DependencySpec, k: string, t: string)
    requires !SpecRaises(directory, walk, parse, spec)
    ensures t in Get(SpecHits(m, directory, walk, parse, spec).value, k) <==> t in Get(m, k) || Gives(directory, walk, parse, spec, k, t)
  {
    var path := Join(directory, spec.file);
    if Exists(directory, walk, path) {
      match spec
      case KeySpec(_, keys, category) =>
        var require := Member(LoadJson(directory, walk, parse, path), "require");
        KeyHitsMember(m, category, require.value, keys, k, t);
      case TextSpec(_, needle, category, display) =>
        if ReadFile(directory, walk, path).Some? {
          AddMember(m, category, DisplayName(needle, display), k, t);
        }
    }
  }

  lemma {:induction false} SpecsHitsMember(m: map<string, set<string>>, directory: string, walk: seq<Step>, parse: JsonParser,
                                           specs: seq<DependencySpec>, n: nat, k: string, t: string)
    requires n <= |specs|
    ensures SpecsHits(m, directory, walk, parse, specs[..n]).Some? ==>
      (t in Get(SpecsHits(m, directory, walk, parse, specs[..n]).value, k) <==>
       t in Get(m, k) || exists i :: 0 <= i < n && Gives(directory, walk, parse, specs[i], k, t))
    decreases n
  {
    if n > 0 {
      assert specs[..n][..n - 1] == specs[..n - 1];
      SpecsHitsMember(m, directory, walk, parse, specs, n - 1, k, t);
      var pre := SpecsHits(m, directory, walk, parse, specs[..n - 1]);
      if pre.Some? && !SpecRaises(directory, walk, parse, specs[n - 1]) {
        SpecHitsMember(pre.value, directory, walk, parse, specs[n - 1], k, t);
      }
    }
  }

  lemma {:induction false} JsHitsMember(m: map<string, set<string>>, deps: set<string>, js: seq<JsTech>, n: nat, k: string, t: string)
    requires n <= |js|
    ensures t in Get(JsHits(m, deps, js[..n]), k) <==>
      t in Get(m, k) || exists i :: 0 <= i < n && js[i].kind == k && js[i].name == t && AnyDep(js[i].packages, deps)
    decreases n
  {
    if n > 0 {
      assert js[..n][..n - 1] == js[..n - 1];
      JsHitsMember(m, deps, js, n - 1, k, t);
      AddMember(JsHits(m, deps, js[..n - 1]), js[n - 1].kind, js[n - 1].name, k, t);
    }
  }

  /**
   * When `analyze()` returns, a technology is reported under a category
   * exactly when one of the language's entries gives it there, or, for JS
   * and TS, one of its packages is among package.json's dependencies or
   * devDependencies.
   */
  lemma AnalysisIff(directory: string, lang: string, walk: seq<Step>, parse: JsonParser, specs: seq<DependencySpec>, js: seq<JsTech>, k: string, t: string)
    ensures Analysis(directory, lang, walk, parse, specs, js).Some? ==>
      (t in Get(Analysis(directory, lang, walk, parse, specs, js).value, k) <==>
        (exists i :: 0 <= i < |specs| && Gives(directory, walk, parse, specs[i], k, t))
        || (JsLang(lang) &&
            exists i | 0 <= i < |js| ::
              js[i].kind == k && js[i].name == t
              && AnyDep(js[i].packages, Deps(PackageJson(directory, walk, parse)).value)))
  {
    SpecsHitsMember(map[], directory, walk, parse, specs, |specs|, k, t);
    assert specs[..|specs|] == specs;
    var m := SpecsHits(map[], directory, walk, parse, specs);
    var deps := Deps(PackageJson(directory, walk, parse));
    if m.Some? && deps.Some? {
      JsHitsMember(m.value, deps.value, js, |js|, k, t);
      assert js[..|js|] == js;
    }
  }

  /** A text entry's needle is matched case-insensitively: upper-casing the needle changes nothing. */
  lemma NeedleCaseInsensitive(needle: string)
    ensures Lower(Upper(needle)) == Lower(needle)
  {
    assert forall i :: 0 <= i < |needle| ==> LowerChar(UpperChar(needle[i])) == LowerChar(needle[i]);
  }
}
