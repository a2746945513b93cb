/**
 * The pattern registry: the module-level tables the detectors and analyzers
 * read. Python dicts become ordered tables of (key, value) pairs; compiled
 * registry regexes become abstract `Regex` values named after what they match.
 */
module Patterns {
  import opened Wrappers
  import opened Regex

  // ---------------------------------------------------------------- ordered tables

  /** `table.get(key)`: the value of the first entry with that key, `None` when there is none. */
  function Lookup<V>(table: seq<(string, V)>, key: string): (r: Option<V>)
    ensures r.None? <==> forall i :: 0 <= i < |table| ==> table[i].0 != key
    ensures r.Some? ==> exists i :: 0 <= i < |table| && table[i] == (key, r.value)
  {
    if table == [] then None
    else if table[0].0 == key then Some(table[0].1)
    else Lookup(table[1..], key)
  }

  /** `key in table` */
  predicate HasKey<V>(table: seq<(string, V)>, key: string) {
    exists i :: 0 <= i < |table| && table[i].0 == key
  }

  /** The table's keys, in order. */
  function Keys<V>(table: seq<(string, V)>): (ks: seq<string>)
    ensures |ks| == |table| && forall i :: 0 <= i < |table| ==> ks[i] == table[i].0
  {
    if table == [] then [] else [table[0].0] + Keys(table[1..])
  }

  /** Some element of `s` below `n` satisfies `p` exactly when the one at `n - 1` or one below it does. */
  lemma ExistsBelow<T>(s: seq<T>, n: nat, p: T -> bool)
    requires 0 < n <= |s|
    ensures (exists i :: 0 <= i < n && p(s[i])) <==> (exists i :: 0 <= i < n - 1 && p(s[i])) || p(s[n - 1])
  {
  }

  // ---------------------------------------------------------------- endpoint patterns

  /**
   * One `(regex, framework)` pair of ENDPOINT_PATTERNS with the pattern's number
   * of groups and how many of the leading groups take part in every match.
   */
  datatype EndpointPattern = EndpointPattern(regex: Regex, groups: nat, required: nat, framework: string)

  function EP(name: string, groups: nat, required: nat, framework: string): EndpointPattern {
    EndpointPattern(Regex(name, false), groups, required, framework)
  }

  /** The list shared, pattern for pattern, by the JavaScript, TypeScript and "JavaScript/TypeScript" entries. */
  const ScriptEndpointPatterns: seq<EndpointPattern> := [
    EP("script.express-verb", 2, 2, "Express"),
    EP("script.express-route-chain", 1, 1, "Express"),
    EP("script.nest-decorator", 1, 1, "NestJS"),
    EP("script.jquery-ajax-config", 1, 1, "jQuery AJAX"),
    EP("script.jquery-shorthand", 2, 2, "jQuery AJAX"),
    EP("script.axios-call", 1, 1, "Axios"),
    EP("script.fetch-call", 1, 1, "Fetch API"),
    // `new XMLHttpRequest(` or `xhr.open(...)`: only the second alternative captures
    EP("script.xhr", 1, 0, "XMLHttpRequest"),
    EP("script.angularjs-http", 2, 2, "AngularJS"),
    EP("script.angular-httpclient", 2, 2, "Angular HttpClient")
  ]

  const EndpointPatterns: seq<(string, seq<EndpointPattern>)> := [
    ("Java", [
      EP("java.spring-mapping", 1, 1, "Spring MVC"),
      EP("java.jaxrs-path", 1, 1, "JAX-RS"),
      EP("java.vaadin-route", 1, 1, "Vaadin")]),
    ("C#", [
      EP("csharp.http-attribute", 1, 1, "ASP.NET Core"),
      EP("csharp.minimal-map", 1, 1, "ASP.NET Core Minimal"),
      EP("csharp.route-attribute", 1, 1, "ASP.NET Route")]),
    ("Rust", [
      EP("rust.http-attribute", 1, 1, "Rust HTTP")]),
    ("Kotlin", [
      EP("kotlin.ktor-routing", 1, 1, "Ktor routing")]),
    ("Python", [
      EP("python.decorator-route", 1, 1, "Flask/FastAPI"),
      EP("python.django-path", 1, 1, "Django path"),
      EP("python.django-url", 1, 1, "Django url")]),
    ("JavaScript", ScriptEndpointPatterns),
    ("TypeScript", ScriptEndpointPatterns),
    ("JavaScript/TypeScript", ScriptEndpointPatterns),
    ("Ruby", [
      EP("ruby.rails-verb", 1, 1, "Rails"),
      EP("ruby.sinatra-verb", 1, 1, "Sinatra")]),
    ("PHP", [
      EP("php.laravel-route", 1, 1, "Laravel"),
      EP("php.laravel-group", 1, 1, "Laravel group"),
      EP("php.laravel-resource", 1, 1, "Laravel resource"),
      EP("php.symfony-route", 1, 1, "Symfony")]),
    ("Go", [
      EP("go.gin-verb", 2, 2, "Gin"),
      EP("go.net-http", 1, 1, "net/http"),
      EP("go.gorilla-mux", 1, 1, "Gorilla Mux")])
  ]

  /** ENDPOINT_IGNORE_FILE_PATTERNS, in order, with their IGNORECASE flags. */
  const IgnorePatterns: seq<Regex> := [
    Regex("ignore.tests-dir", true),
    Regex("ignore.mocks-dir", true),
    Regex("ignore.test-word", true),
    Regex("ignore.test-suffix", true),
    Regex("ignore.spec-e2e-suffix", true),
    Regex("ignore.node-modules", false),
    Regex("ignore.vendor", false),
    Regex("ignore.dist", false),
    Regex("ignore.build", false),
    Regex("ignore.coverage", false),
    Regex("ignore.git", false),
    Regex("ignore.next", false),
    Regex("ignore.nuxt", false),
    Regex("ignore.public", false),
    Regex("ignore.fixtures", false),
    Regex("ignore.config", false),
    Regex("ignore.configs", false),
    Regex("ignore.circleci", false),
    Regex("ignore.jenkins", true),
    Regex("ignore.go-test", true),
    Regex("ignore.csharp-test", true),
    Regex("ignore.java-test", true),
    Regex("ignore.tag-get", false)
  ]

  /** AJAX_PATTERN_EXT: one alternation with twelve groups, none of which takes part in every match. */
  const AjaxPattern: Regex := Regex("ajax.client-calls", false)
  const AjaxGroups: nat := 12

  /** PASSWORD_PATTERN: group 1 the keyword, group 2 the value; both take part in every match. */
  const PasswordPattern: Regex := Regex("secret.credential-assignment", false)
  const PasswordGroups: nat := 2

  // ---------------------------------------------------------------- JavaScript technologies

  /** One JS_TECH_DETECTION entry: the technology, its npm packages and its `type`. */
  datatype JsTech = JsTech(name: string, packages: seq<string>, kind: string)

  const JsTechDetection: seq<JsTech> := [
    JsTech("React", ["react", "react-dom"], "frontend"),
    JsTech("Angular", ["@angular/core"], "frontend"),
    JsTech("Vue", ["vue"], "frontend"),
    JsTech("Express", ["express"], "backend"),
    JsTech("NestJS", ["@nestjs/core"], "backend"),
    JsTech("TypeORM", ["typeorm"], "database")
  ]

  /** `main_lang in ["JavaScript", "TypeScript"]`: the languages the JS_TECH_DETECTION block applies to. */
  predicate JsLang(lang: string) {
    lang == "JavaScript" || lang == "TypeScript"
  }

  // ---------------------------------------------------------------- languages

  const LangExtensions: seq<(string, seq<string>)> := [
    ("Java", [".java"]),
    ("PHP", [".php"]),
    ("Python", [".py"]),
    ("Go", [".go"]),
    ("JavaScript", [".js", ".jsx", ".mjs", ".cjs", ".ejs"]),
    ("TypeScript", [".ts", ".tsx"]),
    ("HTML", [".html", ".htm"]),
    ("CSS", [".css", ".scss", ".sass", ".less"]),
    ("Ruby", [".rb"]),
    ("Shell", [".sh", ".bash"]),
    ("Kotlin", [".kt", ".kts"]),
    ("Swift", [".swift"]),
    ("C/C++", [".c", ".cpp", ".h", ".hpp"]),
    ("C#", [".cs"]),
    ("SQL", [".sql"]),
    ("XML", [".xml"]),
    ("YAML", [".yaml", ".yml"]),
    ("JSON", [".json"]),
    ("Markdown", [".md"]),
    ("Docker", ["Dockerfile", ".dockerignore"]),
    ("Config", [".conf", ".cfg", ".ini"])
  ]

  // ---------------------------------------------------------------- configuration files

  /** CONFIG_PATTERNS: file name -> (literal substring -> technology). */
  const ConfigPatterns: seq<(string, seq<(string, string)>)> := [
    ("application.properties", [("spring.datasource", "Spring Boot"), ("quarkus.datasource", "Quarkus")]),
    ("application.yml", [("spring:", "Spring Boot"), ("quarkus:", "Quarkus")]),
    ("composer.json", [("\"laravel/framework\"", "Laravel"), ("\"symfony/symfony\"", "Symfony")]),
    ("package.json", [("\"express\"", "Express"), ("\"next\"", "Next.js"), ("\"react\"", "React")]),
    ("requirements.txt", [("Django", "Django"), ("Flask", "Flask"), ("fastapi", "FastAPI")]),
    (".env", [("DB_CONNECTION=mysql", "MySQL"), ("DB_CONNECTION=pgsql", "PostgreSQL"), ("CACHE_DRIVER=redis", "Redis")])
  ]

  // ---------------------------------------------------------------- dependency manifests

  /**
   * A DEPENDENCY_PATTERNS entry: a 4-tuple (file, needle, category, display
   * name) searched as text, or the 3-tuple whose second item maps package keys
   * of a JSON `require` object to technologies.
   */
  datatype DependencySpec =
    | TextSpec(file: string, needle: string, category: string, display: Option<string>)
    | KeySpec(file: string, keys: seq<(string, string)>, category: string)

  const DependencyPatterns: seq<(string, seq<DependencySpec>)> := [
    ("Java", [
      TextSpec("pom.xml", "spring-boot", "backend", Some("Spring Boot")),
      TextSpec("pom.xml", "quarkus", "backend", Some("Quarkus")),
      TextSpec("pom.xml", "junit", "testing", Some("JUnit")),
      TextSpec("build.gradle", "spring-boot", "backend", Some("Spring Boot")),
      TextSpec("build.gradle", "quarkus", "backend", Some("Quarkus")),
      TextSpec("build.gradle", "junit", "testing", Some("JUnit"))]),
    ("Python", [
      TextSpec("requirements.txt", "django", "backend", Some("Django")),
      TextSpec("requirements.txt", "flask", "backend", Some("Flask")),
      TextSpec("requirements.txt", "fastapi", "backend", Some("FastAPI")),
      TextSpec("setup.py", "django", "backend", Some("Django")),
      TextSpec("setup.py", "flask", "backend", Some("Flask")),
      TextSpec("setup.py", "fastapi", "backend", Some("FastAPI"))]),
    ("Go", [
      TextSpec("go.mod", "github.com/gin-gonic/gin", "backend", Some("Gin"))]),
    ("PHP", [
      KeySpec("composer.json", [("laravel/framework", "Laravel"), ("symfony/symfony", "Symfony")], "backend")])
  ]

  // ---------------------------------------------------------------- technology catalog

  const TechnologiesByLang: seq<(string, seq<(string, seq<string>)>)> := [
    ("Java", [
      ("frameworks", ["Spring Boot", "Quarkus", "Micronaut", "Jakarta EE", "Play Framework", "Vert.x"]),
      ("databases", ["Hibernate", "JPA", "MyBatis", "JDBC", "JOOQ"]),
      ("build_tools", ["Maven", "Gradle", "Ant"]),
      ("test_frameworks", ["JUnit", "TestNG", "Mockito", "AssertJ"]),
      ("devops", ["Docker", "Kubernetes", "Jenkins"])]),
    ("C#", [
      ("frameworks", [".NET Core", ".NET Framework", "ASP.NET MVC", "ASP.NET Web API", "Blazor", "Xamarin"]),
      ("databases", ["Entity Framework", "Dapper", "ADO.NET", "NHibernate"]),
      ("build_tools", ["MSBuild", "NuGet", "Cake"]),
      ("test_frameworks", ["NUnit", "xUnit", "MSTest", "Moq"]),
      ("devops", ["Azure DevOps", "Octopus Deploy"])]),
    ("Python", [
      ("frameworks", ["Django", "Flask", "FastAPI", "Pyramid", "Bottle", "Tornado"]),
      ("databases", ["SQLAlchemy", "Django ORM", "Psycopg", "PyMySQL", "MongoEngine"]),
      ("build_tools", ["pip", "Poetry", "Pipenv", "Setuptools"]),
      ("test_frameworks", ["pytest", "unittest", "nose", "Robot Framework"]),
      ("devops", ["Fabric", "Ansible"])]),
    ("JavaScript", [
      ("frameworks", ["Express", "Koa", "NestJS", "Meteor"]),
      ("frontend", ["React", "Angular", "Vue", "Svelte", "Ember"]),
      ("databases", ["Sequelize", "TypeORM", "Mongoose", "Prisma"]),
      ("build_tools", ["npm", "yarn", "webpack", "vite"]),
      ("test_frameworks", ["Jest", "Mocha", "Jasmine", "Cypress"]),
      ("devops", ["PM2", "Docker"])]),
    ("TypeScript", [
      ("frameworks", ["NestJS", "Express", "LoopBack"]),
      ("frontend", ["Angular", "React", "Vue", "Svelte"]),
      ("databases", ["TypeORM", "Prisma", "MikroORM"]),
      ("build_tools", ["tsc", "webpack", "esbuild"]),
      ("test_frameworks", ["Jest", "Mocha", "Jasmine"]),
      ("devops", ["PM2", "Docker"])]),
    ("PHP", [
      ("frameworks", ["Laravel", "Symfony", "CodeIgniter", "Yii", "Zend"]),
      ("databases", ["Eloquent ORM", "Doctrine", "PDO"]),
      ("build_tools", ["Composer", "Phar"]),
      ("test_frameworks", ["PHPUnit", "Codeception", "PHPSpec"]),
      ("devops", ["Deployer", "Capistrano"])]),
    ("Go", [
      ("frameworks", ["Gin", "Echo", "Fiber", "Beego"]),
      ("databases", ["GORM", "SQLx", "Ent"]),
      ("build_tools", ["go build", "GoReleaser"]),
      ("test_frameworks", ["testing", "Testify", "GoConvey"]),
      ("devops", ["Docker", "Kubernetes"])]),
    ("Ruby", [
      ("frameworks", ["Ruby on Rails", "Sinatra", "Hanami"]),
      ("databases", ["Active Record", "Sequel", "ROM"]),
      ("build_tools", ["Bundler", "Rake"]),
      ("test_frameworks", ["RSpec", "Minitest", "Cucumber"]),
      ("devops", ["Capistrano", "Mina"])]),
    ("Swift", [
      ("frameworks", ["Vapor", "Perfect", "Kitura"]),
      ("databases", ["Fluent", "GRDB", "Realm"]),
      ("build_tools", ["Swift Package Manager", "CocoaPods"]),
      ("test_frameworks", ["XCTest", "Quick", "Nimble"]),
      ("devops", ["Fastlane", "Xcode Server"])]),
    ("Kotlin", [
      ("frameworks", ["Ktor", "Spring Boot", "Micronaut", "Vert.x"]),
      ("databases", ["Exposed", "JPA", "Hibernate"]),
      ("build_tools", ["Gradle", "Maven"]),
      ("test_frameworks", ["JUnit", "Kotest", "MockK"]),
      ("devops", ["Docker", "Kubernetes"])]),
    ("Rust", [
      ("frameworks", ["Actix", "Rocket", "Warp"]),
      ("databases", ["Diesel", "SQLx", "SeaORM"]),
      ("build_tools", ["Cargo", "Rustup"]),
      ("test_frameworks", ["cargo test", "Mockall"]),
      ("devops", ["Docker", "Kubernetes"])]),
    ("Scala", [
      ("frameworks", ["Play", "Akka", "Lift"]),
      ("databases", ["Slick", "Quill", "Doobie"]),
      ("build_tools", ["sbt", "Maven"]),
      ("test_frameworks", ["ScalaTest", "Specs2", "ScalaCheck"]),
      ("devops", ["Docker", "Kubernetes"])])
  ]

  // ---------------------------------------------------------------- technology detectors

  /** The value under a config's `pattern` key: pattern text, or an already compiled pattern. */
  datatype PatternField = PatternText(source: string) | PatternCompiled(regex: Regex)

  /** A detector config dict: its `type`, `path`, `content` and `pattern` keys, each possibly absent. */
  datatype DetectorConfig = DetectorConfig(
    kind: Option<string>, path: Option<string>, content: Option<string>, pattern: Option<PatternField>)

  function FileCfg(path: string): DetectorConfig { DetectorConfig(Some("file"), Some(path), None, None) }
  function FileWith(path: string, content: string): DetectorConfig { DetectorConfig(Some("file"), Some(path), Some(content), None) }
  function DirCfg(path: string): DetectorConfig { DetectorConfig(Some("dir"), Some(path), None, None) }
  function DirWith(path: string, content: string): DetectorConfig { DetectorConfig(Some("dir"), Some(path), Some(content), None) }
  function CodeCfg(pattern: string): DetectorConfig { DetectorConfig(Some("code"), None, None, Some(PatternText(pattern))) }

  /**
   * TECHNOLOGY_DETECTORS. The dict literal names "React" twice with equal
   * values; the dict keeps one entry, at the place of the first.
   */
  const TechnologyDetectors: seq<(string, seq<DetectorConfig>)> := [
    ("Spring Boot", [
      FileWith("pom.xml", "spring-boot-starter"),
      FileWith("build.gradle", "org.springframework.boot"),
      DirCfg("src/main/resources/application.properties"),
      DirCfg("src/main/resources/application.yml"),
      CodeCfg("@SpringBootApplication")]),
    ("Quarkus", [
      FileWith("pom.xml", "quarkus"),
      FileWith("build.gradle", "io.quarkus"),
      DirWith("src/main/resources/application.properties", "quarkus"),
      CodeCfg("@QuarkusMain")]),
    ("Laravel", [
      FileCfg("artisan"),
      FileWith("composer.json", "laravel/framework"),
      DirCfg("app/Http/Controllers"),
      DirCfg("resources/views"),
      CodeCfg(@"use Illuminate\\")]),
    ("Symfony", [
      FileCfg("bin/console"),
      FileWith("composer.json", "symfony/framework-bundle"),
      DirCfg("config/packages"),
      DirCfg("src/Controller"),
      CodeCfg(@"use Symfony\\")]),
    ("Django", [
      FileCfg("manage.py"),
      FileWith("requirements.txt", "Django"),
      DirCfg("urls.py"),
      DirCfg("settings.py"),
      CodeCfg(@"from django\.|import django")]),
    ("Flask", [
      FileWith("requirements.txt", "Flask"),
      CodeCfg(@"from flask import|@app\.route"),
      FileWith("app.py", "Flask(__name__)")]),
    ("Express.js", [
      FileWith("package.json", "express"),
      CodeCfg(@"require\(['\""]express['\""]|import express from"),
      CodeCfg(@"app\.(get|post|put|delete)")]),
    ("React", [
      FileWith("package.json", "react"),
      DirCfg("src/components"),
      CodeCfg(@"import React|React\.Component")]),
    ("ASP.NET Core", [
      FileWith("*.csproj", "Microsoft.AspNetCore"),
      DirCfg("Controllers"),
      CodeCfg(@"\[HttpGet\]|\[Route\(")]),
    ("Ruby on Rails", [
      FileWith("Gemfile", "rails"),
      FileCfg("config/routes.rb"),
      DirCfg("app/controllers"),
      CodeCfg("class ApplicationController < ActionController::Base")]),
    ("MySQL", [
      FileWith(".env", "DB_CONNECTION=mysql"),
      CodeCfg(@"mysql://|mysql2?\.createConnection")]),
    ("PostgreSQL", [
      FileWith(".env", "DB_CONNECTION=pgsql"),
      CodeCfg(@"postgres://|pg\.connect")]),
    ("Maven", [
      FileCfg("pom.xml")]),
    ("Gradle", [
      FileCfg("build.gradle")]),
    ("JUnit", [
      FileWith("pom.xml", "junit"),
      CodeCfg(@"@Test|import org\.junit")]),
    ("pytest", [
      FileWith("requirements.txt", "pytest"),
      CodeCfg("def test_|import pytest")]),
    ("NestJS", [
      FileWith("package.json", "@nestjs/core"),
      CodeCfg(@"@(Controller|Get|Post|Injectable)\("),
      DirCfg("src/controllers")]),
    ("Express", [
      FileWith("package.json", "express"),
      CodeCfg(@"app\.(get|post|put|delete)"),
      CodeCfg(@"import express from ['\""]express['\""]")]),
    ("Angular", [
      FileWith("package.json", "@angular/core"),
      DirCfg("src/app"),
      CodeCfg(@"@Component\(")]),
    ("TypeORM", [
      FileWith("package.json", "typeorm"),
      CodeCfg(@"@Entity\(")]),
    ("CodeIgniter", [
      FileCfg("spark"),
      DirCfg("app/Controllers"),
      CodeCfg(@"use CodeIgniter\\"),
      FileWith("composer.json", "codeigniter4/framework")]),
    ("Composer", [
      FileCfg("composer.json"),
      FileCfg("composer.lock"),
      DirCfg("vendor")]),
    ("PHPUnit", [
      FileCfg("phpunit.xml"),
      FileWith("composer.json", "phpunit/phpunit"),
      DirCfg("tests")]),
    ("Next.js", [
      FileWith("package.json", "next"),
      DirCfg("pages"),
      CodeCfg("import.*from ['\"]next['\"]")])
  ]

  // ---------------------------------------------------------------- well-formedness of the tables

  /** The category keys the stack analyzer's `category_map` knows. */
  const CatalogCategoryKeys: set<string> :=
    {"frameworks", "frontend", "databases", "build_tools", "test_frameworks", "devops"}

  /** Every JS_TECH_DETECTION entry has a `type` among frontend, backend and database. */
  lemma JsTechKinds()
    ensures forall i :: 0 <= i < |JsTechDetection| ==>
      JsTechDetection[i].kind in {"frontend", "backend", "database"} && JsTechDetection[i].packages != []
  {
  }

  /** Every category key of the catalog is one the stack analyzer's category map covers. */
  lemma CatalogCategoriesKnown()
    ensures forall i, j :: 0 <= i < |TechnologiesByLang| && 0 <= j < |TechnologiesByLang[i].1| ==>
      TechnologiesByLang[i].1[j].0 in CatalogCategoryKeys
  {
  }

  /** The shape the stack analyzer and the file detector rely on for one detector config. */
  predicate WellFormedConfig(c: DetectorConfig) {
    && c.kind.Some? && c.kind.value in {"file", "dir", "code"}
    && (c.kind.value == "code" ==> c.pattern.Some? && c.pattern.value.PatternText? && c.path.None?)
    && (c.kind.value in {"file", "dir"} ==> c.path.Some? && c.pattern.None?)
  }

  /** Every TECHNOLOGY_DETECTORS config has type file, dir or code; code configs carry a pattern text, file and dir configs a path. */
  lemma DetectorConfigsWellFormed()
    ensures forall i, j :: 0 <= i < |TechnologyDetectors| && 0 <= j < |TechnologyDetectors[i].1| ==>
      WellFormedConfig(TechnologyDetectors[i].1[j])
  {
  }

  /** Text-search dependency entries all carry a display name; the only map-valued entry is for composer.json. */
  lemma DependencyPatternsShape()
    ensures forall i, j :: 0 <= i < |DependencyPatterns| && 0 <= j < |DependencyPatterns[i].1| ==>
      var s := DependencyPatterns[i].1[j];
      (s.TextSpec? ==> s.display.Some? && s.display.value != "")
      && (s.KeySpec? ==> s.file == "composer.json" && DependencyPatterns[i].0 == "PHP")
  {
  }

  /** Every endpoint pattern has one or two groups; with two, both (verb, then route) take part in every match. */
  lemma EndpointGroupCounts()
    ensures forall i, j :: 0 <= i < |EndpointPatterns| && 0 <= j < |EndpointPatterns[i].1| ==>
      var p := EndpointPatterns[i].1[j];
      (p.groups == 1 || p.groups == 2) && p.required <= p.groups && (p.groups == 2 ==> p.required == 2)
  {
  }

  /** CONFIG_PATTERNS maps six file names, each to a non-empty substring table. */
  lemma ConfigPatternsShape()
    ensures |ConfigPatterns| == 6
    ensures forall i :: 0 <= i < |ConfigPatterns| ==> ConfigPatterns[i].1 != []
  {
  }
}
