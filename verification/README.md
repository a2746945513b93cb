# Code analyzer core, modelled in Dafny

The modelled system is a static, heuristic inspector of a source tree. It:

- classifies files by language and counts source lines;
- detects the technology stack of a project with file, directory, content and regex probes;
- reads declared dependencies out of manifest files;
- finds configuration files that name a technology, and credential-shaped values in them;
- finds HTTP endpoint definitions and client-side AJAX call sites with per-language regular expressions;
- merges all of these into one report.

The model covers the detection pipeline:

- the pattern registry (`patterns.dfy`);
- the endpoint detector and its record ordering (`endpoint_detector.dfy`, `endpoint_records.dfy`);
- the code, file and configuration detectors;
- the stack, dependency and language analyzers;
- the command's main-language choice, active-language filter, stack merge and results record (`cli.dfy`);
- path formatting (`utils.dfy`).

Imperative source code is modelled as classes and methods with loops. Each is proved against a specification function that folds over the input from the end, the way the loop consumes it. Lemmas then state what the source promises about those functions:

- membership in both directions;
- order and stability;
- permutation;
- the merge's only-adds behaviour;
- the share and line totals.

The environment is a set of parameters:

- **File tree.** A sequence of `Step`s in `os.walk` order. Each file is a `FileEntry` whose content is `None` when it cannot be read.
- **Regular expressions.** An `Engine` function gives `finditer`'s matches (start offset plus optional groups). Registry patterns are abstract `Regex` values.
- **Globbing.** `glob.glob` is a `Glob` function.
- **JSON parsing.** `json.load` is a `JsonParser` returning `None` on malformed input.
- **`os.path.relpath`.** A `RelPath` function returning `None` where Python raises `ValueError`.

Python dicts whose order shows in the output are ordered `seq`s of pairs: the language counter, the configuration detector's `detected`, and the registry tables. Category-to-set dicts are Dafny `map`s.

Three behaviours of the code are easy to misread. The model follows the code in each:

- **Endpoint duplicates.** Endpoint records are kept with duplicates, in a stable (file, line) order. Only AJAX calls go through a set.
- **Result sections.** The results have nine sections, `config_secrets` included.
- **FileDetector crash.** `FileDetector.detect` refers to `re` without importing it. Every call with a config raises NameError. `analyze_stack` swallows that exception, so file and dir instances never fire. `Cli.Analyze` runs the stack analyzer as the program does, with `Variant.AsWritten`. Every stack member also takes `Variant.Corrected`, the module with `re` imported (see Findings).

The command's stack step reads TECHNOLOGIES_BY_LANG and TECHNOLOGY_DETECTORS. `Cli.Technologies` and `Cli.Analyze` take these two tables as the parameters `catalog` and `table`. They require every category key of `catalog` to be one the category map knows (`StackAnalysis.KnownCategories`). The registry tables meet this (`Patterns.CatalogCategoriesKnown`), and `StackAnalysis.StackAnalyzer.PrepareDetectors` is proved to plan from them.

## Model

| member | source | states |
|---|---|---|
| Patterns.Lookup | src/code_analyzer/detectors/endpoint_detector.py:61 | `dict.get`: `None` exactly when no entry has the key, otherwise the value of an entry with that key |
| Patterns.JsTechKinds | src/code_analyzer/patterns.py:303-310 | every JS_TECH_DETECTION entry has type frontend, backend or database and at least one package |
| Patterns.CatalogCategoriesKnown | src/code_analyzer/patterns.py:391-478 | every category key of TECHNOLOGIES_BY_LANG is one of frameworks, frontend, databases, build_tools, test_frameworks, devops |
| Patterns.DetectorConfigsWellFormed | src/code_analyzer/patterns.py:479-627 | every TECHNOLOGY_DETECTORS config has type file, dir or code; code configs carry a pattern, file and dir configs a path |
| Patterns.DependencyPatternsShape | src/code_analyzer/patterns.py:364-389 | substring entries carry a non-empty display name; the only map-valued entry is PHP's composer.json |
| Patterns.EndpointGroupCounts | src/code_analyzer/patterns.py:37-264 | every endpoint regex has 1 or 2 groups; in 2-group patterns both groups (verb, then route) always take part |
| Patterns.ConfigPatternsShape | src/code_analyzer/patterns.py:346-358 | CONFIG_PATTERNS has six filenames, each with a non-empty substring-to-technology map |
| Text.Lower | src/code_analyzer/analyzers/language_analyzer.py:21 | `str.lower` keeps the length |
| Text.Upper | src/code_analyzer/detectors/endpoint_detector.py:64 | `str.upper` keeps the length |
| Text.Prefix | src/code_analyzer/detectors/endpoint_detector.py:67 | `text[:m.start()]` is no longer than the text |
| Text.CountChar | src/code_analyzer/detectors/endpoint_detector.py:67 | the newline count is bounded by the length |
| Text.IndexOf | src/code_analyzer/detectors/code_detector.py:31 | the first occurrence of a character, none before it |
| Text.FirstBoundary | src/code_analyzer/analyzers/language_analyzer.py:62 | `splitlines` breaks at the first line boundary, none before it |
| Text.BoundaryIsSpace | src/code_analyzer/analyzers/language_analyzer.py:62 | every line boundary is whitespace for `strip` |
| Text.BlankConcat | src/code_analyzer/analyzers/language_analyzer.py:62 | a concatenation is blank exactly when both parts are |
| Text.SlocZeroIffBlank | src/code_analyzer/analyzers/language_analyzer.py:62 | a file has no source line exactly when it is whitespace only |
| Text.StrLeTotal | src/code_analyzer/detectors/endpoint_detector.py:90 | Python's string order is total |
| Text.StrLeTrans | src/code_analyzer/detectors/endpoint_detector.py:90 | Python's string order is transitive |
| Text.StrLeAntisym | src/code_analyzer/detectors/endpoint_detector.py:103 | Python's string order is antisymmetric |
| Text.StrLeRefl | src/code_analyzer/detectors/endpoint_detector.py:90 | Python's string order is reflexive |
| Regex.FirstNonEmptyIsFirst | src/code_analyzer/detectors/endpoint_detector.py:79 | `next((g for g in groups if g), None)` is the first captured group, `None` exactly when no group captured text |
| Regex.FindAllSecond | src/code_analyzer/detectors/config_detector.py:39-41 | `[match[1] for match in findall]` has one value per match |
| FileTree.LastIndexOf | src/code_analyzer/detectors/endpoint_detector.py:44 | the last occurrence of a character, `None` when there is none |
| FileTree.Ext | src/code_analyzer/detectors/endpoint_detector.py:44 | `splitext(...)[1]` is empty or a dot-led suffix of the name |
| FileTree.Basename | src/code_analyzer/analyzers/language_analyzer.py:22 | `basename` is a suffix of the path |
| EndpointRecords.KeyLeTotal | src/code_analyzer/detectors/endpoint_detector.py:90 | the (file, line) sort key is a total preorder |
| EndpointRecords.KeyLeTrans | src/code_analyzer/detectors/endpoint_detector.py:90 | the (file, line) sort key order is transitive |
| EndpointRecords.InsertKeyPermutation | src/code_analyzer/detectors/endpoint_detector.py:90 | inserting a record adds exactly that record |
| EndpointRecords.InsertKeySorted | src/code_analyzer/detectors/endpoint_detector.py:90 | inserting into a sorted list keeps it sorted |
| EndpointRecords.SortByFileLineSorted | src/code_analyzer/detectors/endpoint_detector.py:90 | `raw.sort(key=(file, line))` yields a list sorted by (file, line) |
| EndpointRecords.SortByFileLinePermutation | src/code_analyzer/detectors/endpoint_detector.py:90 | the sort is a permutation: no record lost, none added, duplicates kept |
| EndpointRecords.WithKeyAppend | src/code_analyzer/detectors/endpoint_detector.py:90 | selecting records with one key distributes over concatenation |
| EndpointRecords.InsertKeyStable | src/code_analyzer/detectors/endpoint_detector.py:90 | an inserted record goes after the records with an equal key |
| EndpointRecords.SortByFileLineStable | src/code_analyzer/detectors/endpoint_detector.py:90 | the sort is stable: records with equal (file, line) keep their scan order |
| EndpointRecords.InsertAt | src/code_analyzer/detectors/endpoint_detector.py:90 | one in-place insertion step places a[i] into the sorted prefix and leaves the rest |
| EndpointRecords.SortEndpoints | src/code_analyzer/detectors/endpoint_detector.py:90 | the in-place sort leaves the array equal to the stable sort of its old contents |
| EndpointRecords.AjaxLeTotal | src/code_analyzer/detectors/endpoint_detector.py:103 | tuple order on AJAX calls is total |
| EndpointRecords.AjaxLeAntisym | src/code_analyzer/detectors/endpoint_detector.py:103 | tuple order on AJAX calls is antisymmetric |
| EndpointRecords.AjaxLeTrans | src/code_analyzer/detectors/endpoint_detector.py:103 | tuple order on AJAX calls is transitive |
| EndpointRecords.MinimumExists | src/code_analyzer/detectors/endpoint_detector.py:103 | a non-empty set of calls has a least element |
| EndpointRecords.SortAjax | src/code_analyzer/detectors/endpoint_detector.py:101-104 | `sorted(ajax_calls)` is strictly increasing and holds exactly the set's calls |
| EndpointRecords.StrictlySortedUnique | src/code_analyzer/detectors/endpoint_detector.py:103 | two strictly sorted lists with the same members are equal, so the sorted AJAX list is determined by the set |
| EndpointDetection.AnyHit | src/code_analyzer/detectors/endpoint_detector.py:40 | `any(pat.search(fpath) ...)` holds exactly when some ignore pattern matches |
| EndpointDetection.Admit | src/code_analyzer/detectors/endpoint_detector.py:37-59 | the text and language of a file the scan reads; none for an ignored path, an extension outside EXTENSION_LANG_MAP, an unreadable file, or a language that is not active |
| EndpointDetection.Record | src/code_analyzer/detectors/endpoint_detector.py:64-74 | the record of one match: relative path, 1-based line of the match start, framework, the upper-cased group 1 as method for 2-group patterns and "ALL" otherwise, and the last group as route |
| EndpointDetection.EndpointDetector.constructor | src/code_analyzer/detectors/endpoint_detector.py:27-29 | keeps the directory and the active languages |
| EndpointDetection.EndpointDetector.AppendMatches | src/code_analyzer/detectors/endpoint_detector.py:62-74 | appends one record per match of one pattern, in match order |
| EndpointDetection.EndpointDetector.AppendEndpoints | src/code_analyzer/detectors/endpoint_detector.py:61-74 | appends the records of every pattern of the file's language, pattern by pattern |
| EndpointDetection.EndpointDetector.AddAjax | src/code_analyzer/detectors/endpoint_detector.py:77-87 | adds one call per AJAX match with a non-empty group |
| EndpointDetection.EndpointDetector.ScanFile | src/code_analyzer/detectors/endpoint_detector.py:37-87 | extends the raw list and the call set by exactly what one admitted file contributes |
| EndpointDetection.EndpointDetector.ScanStep | src/code_analyzer/detectors/endpoint_detector.py:36-87 | extends them by what one directory's files contribute, in listing order |
| EndpointDetection.EndpointDetector.Detect | src/code_analyzer/detectors/endpoint_detector.py:31-106 | endpoints = the stable (file, line) sort of every raw record; AJAX = the distinct calls, strictly increasing |
| EndpointDetection.EndpointDetector.Confidence | src/code_analyzer/detectors/endpoint_detector.py:108-110 | 1.0 exactly when an endpoint or a call is found, else 0.0 |
| EndpointDetection.MatchRecordsIff | src/code_analyzer/detectors/endpoint_detector.py:62-74 | a record comes from one pattern exactly when it is the record of one of its matches |
| EndpointDetection.PatternRecordsIff | src/code_analyzer/detectors/endpoint_detector.py:61-74 | a record comes from a file exactly when it is the record of some match of some pattern |
| EndpointDetection.StepEndpointsIff | src/code_analyzer/detectors/endpoint_detector.py:36-74 | a record comes from a directory exactly when it comes from one of its files |
| EndpointDetection.WalkEndpointsIff | src/code_analyzer/detectors/endpoint_detector.py:35-74 | a record comes from the walk exactly when it comes from one of its files |
| EndpointDetection.MatchAjaxIff | src/code_analyzer/detectors/endpoint_detector.py:77-87 | a call comes from a file exactly when some AJAX match yields it |
| EndpointDetection.StepAjaxIff | src/code_analyzer/detectors/endpoint_detector.py:36-87 | a call comes from a directory exactly when it comes from one of its files |
| EndpointDetection.WalkAjaxIff | src/code_analyzer/detectors/endpoint_detector.py:35-87 | a call comes from the walk exactly when it comes from one of its files |
| EndpointDetection.IgnoredFileYieldsNothing | src/code_analyzer/detectors/endpoint_detector.py:40-41 | a path an ignore pattern matches yields no endpoint and no call |
| EndpointDetection.ExtensionLanguages | src/code_analyzer/detectors/endpoint_detector.py:13-24 | the extension map only yields its eight languages; C#, Rust and the "JavaScript/TypeScript" patterns are never used |
| EndpointDetection.EndpointOrigin | src/code_analyzer/detectors/endpoint_detector.py:35-74 | every endpoint comes from a readable, non-ignored file with a mapped extension whose language is active; line >= 1; framework from that language's patterns |
| EndpointDetection.EndpointCompleteness | src/code_analyzer/detectors/endpoint_detector.py:35-74 | every match of every pattern in every admitted file is reported |
| EndpointDetection.AjaxOrigin | src/code_analyzer/detectors/endpoint_detector.py:76-87 | every call comes from an admitted file, has line >= 1, and its URL is the first non-empty group of an AJAX match |
| EndpointDetection.AjaxNeedsCapture | src/code_analyzer/detectors/endpoint_detector.py:79-81 | a match yields no call exactly when none of its groups captured text |
| EndpointDetection.RecordFields | src/code_analyzer/detectors/endpoint_detector.py:64-67 | 2-group patterns give the upper-cased group 1 as verb and group 2 as route; 1-group patterns give "ALL" and group 1 |
| CodeDetection.LineHits | src/code_analyzer/detectors/code_detector.py:31-34 | the records of one file's lines: line k (1-based) gives (path, k, first match text) when the pattern matches it |
| CodeDetection.TreeHits | src/code_analyzer/detectors/code_detector.py:24-37 | the records of every readable source file of the walk, in walk order; unreadable files give none |
| CodeDetection.CodeDetector.constructor | src/code_analyzer/detectors/code_detector.py:11-16 | compiles the pattern case-insensitively; no matches yet |
| CodeDetection.CodeDetector.ScanLines | src/code_analyzer/detectors/code_detector.py:31-34 | appends the first match of each matching line, in line order |
| CodeDetection.CodeDetector.ScanStep | src/code_analyzer/detectors/code_detector.py:24-37 | appends the hits of one directory's readable source files |
| CodeDetection.CodeDetector.Detect | src/code_analyzer/detectors/code_detector.py:18-38 | clears the matches, then holds and returns exactly the hits of the walk |
| CodeDetection.CodeDetector.Confidence | src/code_analyzer/detectors/code_detector.py:40-51 | files with a hit divided by source files, 0.0 when there is no source file |
| CodeDetection.LineHitsIff | src/code_analyzer/detectors/code_detector.py:31-34 | a hit is recorded exactly for a line the pattern matches, with 1-based number and the matched text |
| CodeDetection.LineHitsIncreasing | src/code_analyzer/detectors/code_detector.py:31-34 | hits of one file have strictly increasing line numbers (one per line) within the file's lines |
| CodeDetection.StepPathsCovered | src/code_analyzer/detectors/code_detector.py:26-34 | every hit in a directory is in one of its source files |
| CodeDetection.TreePathsCovered | src/code_analyzer/detectors/code_detector.py:24-34 | every hit of the walk is in one of its source files |
| CodeDetection.FileHitsIff | src/code_analyzer/detectors/code_detector.py:26-37 | a file yields a record exactly when it is a readable source file and the record names one of its matching lines, 1-based, with that line's first match |
| CodeDetection.StepHitsIff | src/code_analyzer/detectors/code_detector.py:25-37 | a directory's records are exactly the matching-line records of its files |
| CodeDetection.TreeHitsIff | src/code_analyzer/detectors/code_detector.py:23-38 | `detect()` returns exactly the matching-line records of every readable source file of the walk, so every matching line is reported |
| CodeDetection.TreeHitsNonEmpty | src/code_analyzer/detectors/code_detector.py:23-38 | `detect()` returns some record exactly when some line of some readable source file matches the pattern |
| CodeDetection.DetectedPathsBounded | src/code_analyzer/detectors/code_detector.py:44-51 | files with a hit never outnumber source files, so confidence is at most 1 |
| FileDetection.Candidates | src/code_analyzer/detectors/file_detector.py:27-48 | the paths one config looks at: walked files whose name its compiled pattern matches, or else what its `path` (default "") globs to under the directory |
| FileDetection.Consider | src/code_analyzer/detectors/file_detector.py:34-57 | one candidate: kept for a dir config when it is a directory; for a file config when it is a file and, with `content`, its text contains it; an unreadable file with `content` raises; otherwise skipped |
| FileDetection.Outcome | src/code_analyzer/detectors/file_detector.py:13-59 | what `detect` gives its caller: as written, (False, []) without configs and NameError otherwise; corrected, an exception on a failed read, else (records non-empty, records) |
| FileDetection.FileDetector.constructor | src/code_analyzer/detectors/file_detector.py:8-11 | keeps directory and configs; no matches |
| FileDetection.FileDetector.MatchingFiles | src/code_analyzer/detectors/file_detector.py:30-33 | the full paths of walked files whose name the compiled pattern matches, in walk order |
| FileDetection.FileDetector.Offer | src/code_analyzer/detectors/file_detector.py:34-43 | appends the accepted candidates of one config, stopping where a read fails |
| FileDetection.FileDetector.Detect | src/code_analyzer/detectors/file_detector.py:13-59 | the corrected detect: matches = the fold of every config's candidates; found exactly when matches is non-empty; an unreadable file that must be searched raises |
| FileDetection.FileDetector.DetectAsWritten | src/code_analyzer/detectors/file_detector.py:28 | as written: with any config the `re` lookup raises; with none it returns (False, []) |
| FileDetection.FileDetector.Confidence | src/code_analyzer/detectors/file_detector.py:61-66 | matches divided by configs, 0.0 without configs |
| FileDetection.FeedRaised | src/code_analyzer/detectors/file_detector.py:39 | once a read has raised, later candidates change nothing |
| FileDetection.FeedRaisedPrefix | src/code_analyzer/detectors/file_detector.py:39 | the scan of a config ends at its first failed read |
| FileDetection.FeedAllRaisedPrefix | src/code_analyzer/detectors/file_detector.py:24-59 | an exception ends the whole detect: later configs add nothing |
| FileDetection.DirConfig | src/code_analyzer/detectors/file_detector.py:49-50 | a dir config keeps a candidate with content None exactly when it is a directory, else skips it |
| FileDetection.FileConfig | src/code_analyzer/detectors/file_detector.py:51-57 | a file config skips non-files, keeps files without content check, and with a content check keeps exactly the files containing it |
| FileDetection.MissingTypeIsFile | src/code_analyzer/detectors/file_detector.py:25 | a config without type behaves as a file config |
| FileDetection.FeedHits | src/code_analyzer/detectors/file_detector.py:48-57 | every new hit is an accepted candidate of the config |
| FileDetection.FeedAllHits | src/code_analyzer/detectors/file_detector.py:24-57 | every hit is an accepted candidate of some config |
| FileDetection.FeedKeeps | src/code_analyzer/detectors/file_detector.py:34-57 | records are only appended; when no read raised, every candidate the config accepts is recorded |
| FileDetection.FeedAllKeeps | src/code_analyzer/detectors/file_detector.py:24-57 | when no read raised, every accepted candidate of every config is recorded |
| FileDetection.FoundIff | src/code_analyzer/detectors/file_detector.py:13-59 | when the corrected detect returns, it reports found exactly when some config accepts some candidate |
| FileDetection.ConfidenceAboveOne | src/code_analyzer/detectors/file_detector.py:61-66 | one glob config matching two files gives two hits, so confidence can exceed 1.0 |
| ConfigDetection.Effective | src/code_analyzer/detectors/config_detector.py:13 | `config_patterns or CONFIG_PATTERNS`: a missing or empty table falls back to the registry |
| ConfigDetection.Named | src/code_analyzer/detectors/config_detector.py:25 | `cfg_file in files`: a listed file with that name, `None` exactly when there is none |
| ConfigDetection.FileState | src/code_analyzer/detectors/config_detector.py:25-42 | one configured filename in one directory: skipped when absent or unreadable; else its path recorded under each technology whose substring occurs, and (path, second groups) appended to the secrets when the password pattern matches |
| ConfigDetection.WalkState | src/code_analyzer/detectors/config_detector.py:23-42 | the state after the walk: every directory, then every table entry in table order, applied to the state the detector already held |
| ConfigDetection.ConfigDetector.constructor | src/code_analyzer/detectors/config_detector.py:10-15 | the effective table, nothing detected, no secrets |
| ConfigDetection.ConfigDetector.ScanTechs | src/code_analyzer/detectors/config_detector.py:34-36 | appends the path under each technology whose substring occurs, secrets untouched |
| ConfigDetection.ConfigDetector.ScanStep | src/code_analyzer/detectors/config_detector.py:24-42 | updates detected and secrets by one directory, table entry by table entry |
| ConfigDetection.ConfigDetector.Detect | src/code_analyzer/detectors/config_detector.py:17-43 | the state is the fold of the walk over the old state (never cleared); returns detected |
| ConfigDetection.ConfigDetector.Confidence | src/code_analyzer/detectors/config_detector.py:45-51 | recorded paths divided by configured substrings, 0.0 when there are none |
| ConfigDetection.AddPathLookup | src/code_analyzer/detectors/config_detector.py:36 | `setdefault(tech, []).append(path)` extends that technology's list by the path and leaves others |
| ConfigDetection.AddPathKeys | src/code_analyzer/detectors/config_detector.py:36 | a new technology goes last, an existing one keeps its place |
| ConfigDetection.TechHitsMember | src/code_analyzer/detectors/config_detector.py:34-36 | a path is listed under a technology exactly when it was, or some substring for it occurs |
| ConfigDetection.FileStateMember | src/code_analyzer/detectors/config_detector.py:24-36 | the same for one configured filename in one directory |
| ConfigDetection.StepStateMember | src/code_analyzer/detectors/config_detector.py:24-36 | the same for one directory |
| ConfigDetection.WalkStateMember | src/code_analyzer/detectors/config_detector.py:23-36 | the same for the whole walk |
| ConfigDetection.TechHitsExtends | src/code_analyzer/detectors/config_detector.py:36 | lists only grow |
| ConfigDetection.StepStateExtends | src/code_analyzer/detectors/config_detector.py:24-42 | a directory only adds paths and secrets |
| ConfigDetection.WalkStateExtends | src/code_analyzer/detectors/config_detector.py:17-43 | detect only adds to what earlier calls left |
| ConfigDetection.StepSecrets | src/code_analyzer/detectors/config_detector.py:39-42 | every new secret entry has at least one value and comes from one configured file |
| ConfigDetection.WalkSecrets | src/code_analyzer/detectors/config_detector.py:23-42 | the same over the walk |
| ConfigDetection.StepSecretsComplete | src/code_analyzer/detectors/config_detector.py:38-42 | a readable table file of a directory whose text the password pattern matches adds (its path, the second group of each match in order) to the secrets |
| ConfigDetection.WalkSecretsComplete | src/code_analyzer/detectors/config_detector.py:23-42 | the same for every directory of the walk; with WalkSecrets, the secrets added are exactly these records |
| ConfigDetection.AddPathFound | src/code_analyzer/detectors/config_detector.py:36 | `setdefault(tech, []).append(path)` records exactly one more path |
| ConfigDetection.TechHitsFound | src/code_analyzer/detectors/config_detector.py:34-36 | one file records one path per table substring that occurs in its text |
| ConfigDetection.StepStateFound | src/code_analyzer/detectors/config_detector.py:24-36 | one directory records one path per (readable configured file, occurring substring) pair |
| ConfigDetection.WalkStateFound | src/code_analyzer/detectors/config_detector.py:23-50 | the numerator of `confidence`: the walk records exactly one path per (readable configured file, occurring substring) pair |
| StackAnalysis.EmptyResult | src/code_analyzer/analyzers/stack_analyzer.py:47-54 | the six result categories, all empty |
| StackAnalysis.JsCategory | src/code_analyzer/analyzers/stack_analyzer.py:20 | always frontend, backend or database, and the type itself when it is one |
| StackAnalysis.Stack | src/code_analyzer/analyzers/stack_analyzer.py:63-73 | running the entries keeps the result's categories |
| StackAnalysis.ProbeOf | src/code_analyzer/analyzers/stack_analyzer.py:35-39 | the instance one config gives: a file detector for type file or dir, a code detector over its pattern for type code, none otherwise |
| StackAnalysis.Planned | src/code_analyzer/analyzers/stack_analyzer.py:12-41 | the entries `prepare_detectors` appends: for JavaScript/TypeScript the JS_TECH_DETECTION entries first, then the language's catalog entries |
| StackAnalysis.ProbeFires | src/code_analyzer/analyzers/stack_analyzer.py:65-71 | one instance reports its technology: a file detector returns found without raising, a code detector returns some record |
| StackAnalysis.StackAnalyzer.constructor | src/code_analyzer/analyzers/stack_analyzer.py:7-10 | no detectors yet |
| StackAnalysis.StackAnalyzer.BuildProbes | src/code_analyzer/analyzers/stack_analyzer.py:33-39 | one file detector per file/dir config, one code detector per code config, in order |
| StackAnalysis.StackAnalyzer.AddTechs | src/code_analyzer/analyzers/stack_analyzer.py:29-41 | appends an entry for each technology with instances |
| StackAnalysis.StackAnalyzer.PrepareJs | src/code_analyzer/analyzers/stack_analyzer.py:18-24 | for JavaScript/TypeScript appends one entry per JS technology, holding a single code instance whose pattern is the alternation of its quoted package names; like every code instance it searches the source files |
| StackAnalysis.StackAnalyzer.PrepareCatalog | src/code_analyzer/analyzers/stack_analyzer.py:27-41 | appends the language's catalog entries, category by category |
| StackAnalysis.StackAnalyzer.PrepareDetectors | src/code_analyzer/analyzers/stack_analyzer.py:12-41 | appends the planned entries for the main language, JS entries first |
| StackAnalysis.StackAnalyzer.PrepareFrom | src/code_analyzer/analyzers/stack_analyzer.py:12-41 | the same over given tables, keeping every category mappable |
| StackAnalysis.StackAnalyzer.RunProbe | src/code_analyzer/analyzers/stack_analyzer.py:65-71 | a fresh detector's detect, with the file detector as written or corrected; an exception counts as not found |
| StackAnalysis.StackAnalyzer.Fires | src/code_analyzer/analyzers/stack_analyzer.py:65-73 | some instance of the entry fires, stopping at the first |
| StackAnalysis.StackAnalyzer.AnalyzeStack | src/code_analyzer/analyzers/stack_analyzer.py:43-74 | the six categories, with each firing technology under its mapped category, for either file detector |
| StackAnalysis.TechEntriesCategory | src/code_analyzer/analyzers/stack_analyzer.py:29-41 | an entry carries its category, a listed technology and the non-empty instances of its configs |
| StackAnalysis.CatalogEntriesCategory | src/code_analyzer/analyzers/stack_analyzer.py:28-41 | catalog entries come from the language's categories and technologies |
| StackAnalysis.JsEntriesCategory | src/code_analyzer/analyzers/stack_analyzer.py:20 | JS entries go to frontend, backend or database |
| StackAnalysis.PlannedMapped | src/code_analyzer/analyzers/stack_analyzer.py:55-64 | every planned category maps to a result key, so `result[mapped]` never fails |
| StackAnalysis.StackMember | src/code_analyzer/analyzers/stack_analyzer.py:63-73 | a technology is under a category exactly when it was or some entry reports it there |
| StackAnalysis.AnalyzeStackIff | src/code_analyzer/analyzers/stack_analyzer.py:43-74 | a technology is in a result category exactly when one of its entries maps there and fires |
| StackAnalysis.JsEntriesIndex | src/code_analyzer/analyzers/stack_analyzer.py:19-24 | one entry per JS technology, with the `"(?:p1\|p2)"` package pattern |
| StackAnalysis.PlannedAllMapped | src/code_analyzer/analyzers/stack_analyzer.py:12-41 | every entry planned from a catalog with known category keys maps to a result key |
| StackAnalysis.LangStack | src/code_analyzer/analyzers/stack_analyzer.py:43-74 | a fresh analyzer after `prepare_detectors` reports exactly the six result categories |
| StackAnalysis.AsWrittenProbe | src/code_analyzer/analyzers/stack_analyzer.py:65-71 | as written, an instance fires exactly when it is a code instance that fires |
| StackAnalysis.AsWrittenAnyFires | src/code_analyzer/analyzers/stack_analyzer.py:65-73 | as written, an entry fires exactly when one of its code instances fires |
| StackAnalysis.AsWrittenStack | src/code_analyzer/analyzers/stack_analyzer.py:63-73 | the program's stack equals the corrected stack over the same entries with their file and dir instances dropped |
| StackAnalysis.FileOnlyNeverFoundAsWritten | src/code_analyzer/analyzers/stack_analyzer.py:65-73 | as written, a technology all of whose entries have only file/dir instances is never reported |
| StackAnalysis.PomProbe | src/code_analyzer/detectors/file_detector.py:28 | in a directory holding `pom.xml`, the `pom.xml` instance fires with the corrected detector and not as written |
| StackAnalysis.MavenMissedAsWritten | src/code_analyzer/analyzers/stack_analyzer.py:63-73 | wherever the corrected `pom.xml` instance fires, the corrected stack adds Maven under build_tools and the program's stack does not |
| DependencyAnalysis.Member | src/code_analyzer/analyzers/dependency_analyzer.py:27 | `data.get(key, {})`: raises exactly when the document is not a dict; a missing key gives `{}` |
| DependencyAnalysis.In | src/code_analyzer/analyzers/dependency_analyzer.py:29 | `pkg in require` raises exactly when `require` is not a dict, list or string |
| DependencyAnalysis.SpecHits | src/code_analyzer/analyzers/dependency_analyzer.py:16-40 | one entry raises exactly when its manifest exists, it is a key entry, and the JSON is not a dict or its `require` is a scalar tested against a package |
| DependencyAnalysis.SpecsHitsRaised | src/code_analyzer/analyzers/dependency_analyzer.py:15-40 | the entries raise exactly when one of them does |
| DependencyAnalysis.SpecsHitsRaisedPrefix | src/code_analyzer/analyzers/dependency_analyzer.py:15-40 | once the first entries raise, the whole loop raises |
| DependencyAnalysis.AnalysisRaises | src/code_analyzer/analyzers/dependency_analyzer.py:11-56 | `analyze` raises exactly when an entry raises, or for JavaScript/TypeScript when package.json is not a dict or its `dependencies` or `devDependencies` is not a dict |
| DependencyAnalysis.TopLevelArrayRaises | src/code_analyzer/analyzers/dependency_analyzer.py:43-49 | a JavaScript project whose package.json holds a top-level array makes `analyze` raise |
| DependencyAnalysis.LoadJson | src/code_analyzer/analyzers/dependency_analyzer.py:23-26 | a manifest loaded as JSON; a file that cannot be opened or parsed gives `{}` |
| DependencyAnalysis.DisplayName | src/code_analyzer/analyzers/dependency_analyzer.py:39 | `rest[0] or patterns`: the display name unless it is missing or empty, else the needle |
| DependencyAnalysis.RequireHits | src/code_analyzer/analyzers/dependency_analyzer.py:27-30 | the technologies of the pattern keys present in `require`; raises when `require` is a scalar and there is a key to test |
| DependencyAnalysis.SpecsHits | src/code_analyzer/analyzers/dependency_analyzer.py:15-40 | the entries of the language in order, stopping at the first that raises |
| DependencyAnalysis.Deps | src/code_analyzer/analyzers/dependency_analyzer.py:49 | the package names of `dependencies` and `devDependencies`; raises unless both are dicts |
| DependencyAnalysis.JsHits | src/code_analyzer/analyzers/dependency_analyzer.py:50-54 | adds each JS technology under its type when one of its packages is a dependency |
| DependencyAnalysis.Analysis | src/code_analyzer/analyzers/dependency_analyzer.py:11-56 | what `analyze` gives: the entries' technologies, then for JavaScript/TypeScript the package.json technologies; None where it raises |
| DependencyAnalysis.Add | src/code_analyzer/analyzers/dependency_analyzer.py:30 | `tech_stack[category].add(tech)` creates the category if needed, adds the technology, removes nothing |
| DependencyAnalysis.DependencyAnalyzer.constructor | src/code_analyzer/analyzers/dependency_analyzer.py:7-9 | keeps directory and main language |
| DependencyAnalysis.DependencyAnalyzer.AddKeys | src/code_analyzer/analyzers/dependency_analyzer.py:28-30 | adds the technology of each package present in `require` |
| DependencyAnalysis.DependencyAnalyzer.AddSpecs | src/code_analyzer/analyzers/dependency_analyzer.py:15-40 | folds every spec of the language over an empty stack |
| DependencyAnalysis.DependencyAnalyzer.AddJs | src/code_analyzer/analyzers/dependency_analyzer.py:50-54 | adds each JS technology one of whose packages is a dependency |
| DependencyAnalysis.DependencyAnalyzer.Analyze | src/code_analyzer/analyzers/dependency_analyzer.py:11-56 | the stack of the language's specs, plus package.json technologies for JavaScript/TypeScript; None where it raises |
| DependencyAnalysis.KeyHitsNonEmpty | src/code_analyzer/analyzers/dependency_analyzer.py:28-30 | composer keys never leave an empty category |
| DependencyAnalysis.SpecsHitsNonEmpty | src/code_analyzer/analyzers/dependency_analyzer.py:15-40 | specs never leave an empty category |
| DependencyAnalysis.JsHitsNonEmpty | src/code_analyzer/analyzers/dependency_analyzer.py:50-54 | JS detection never leaves an empty category |
| DependencyAnalysis.AnalysisNonEmpty | src/code_analyzer/analyzers/dependency_analyzer.py:11-56 | every category in the result is non-empty |
| DependencyAnalysis.AddMember | src/code_analyzer/analyzers/dependency_analyzer.py:30 | after an add, a technology is in a category exactly when it was or it is the added one |
| DependencyAnalysis.KeyHitsMember | src/code_analyzer/analyzers/dependency_analyzer.py:27-30 | a technology is added exactly when its package key is in `require` |
| DependencyAnalysis.SpecHitsMember | src/code_analyzer/analyzers/dependency_analyzer.py:16-40 | one spec that does not raise adds exactly what it gives: a present manifest containing the needle, ignoring case, or a required composer key |
| DependencyAnalysis.SpecsHitsMember | src/code_analyzer/analyzers/dependency_analyzer.py:15-40 | the specs add exactly what some spec gives |
| DependencyAnalysis.JsHitsMember | src/code_analyzer/analyzers/dependency_analyzer.py:49-54 | a JS technology is added under its type exactly when one of its packages is a dependency |
| DependencyAnalysis.AnalysisIff | src/code_analyzer/analyzers/dependency_analyzer.py:11-56 | when `analyze` returns, the result holds exactly what some spec gives, plus package.json technologies for JavaScript/TypeScript |
| DependencyAnalysis.NeedleCaseInsensitive | src/code_analyzer/analyzers/dependency_analyzer.py:35-38 | lower-casing erases case (`lower(upper(x)) == lower(x)`), so a manifest matches the needle whatever its case |
| LanguageAnalysis.LanguageOf | src/code_analyzer/analyzers/language_analyzer.py:21-30 | the language of a path: the first LANG_EXTENSIONS entry whose lower-cased extensions hold the path's extension or base name, else "Other" |
| LanguageAnalysis.Tally | src/code_analyzer/analyzers/language_analyzer.py:20-33 | the counter over the files read, in first-seen order: one per file, or the file's non-blank lines for `count_sloc` (lines 50-64) |
| LanguageAnalysis.FirstMatch | src/code_analyzer/analyzers/language_analyzer.py:26-30 | the first table entry whose lower-cased extensions hold the extension or the file name, none before it |
| LanguageAnalysis.Shares | src/code_analyzer/analyzers/language_analyzer.py:35-39 | one share per counted language, in counter order |
| LanguageAnalysis.LanguageAnalyzer.constructor | src/code_analyzer/analyzers/language_analyzer.py:8-9 | keeps the directory |
| LanguageAnalysis.LanguageAnalyzer.Classify | src/code_analyzer/analyzers/language_analyzer.py:21-30 | the language of the first matching entry, "Other" when none matches |
| LanguageAnalysis.LanguageAnalyzer.Count | src/code_analyzer/analyzers/language_analyzer.py:50-64 | the counter over the files, with the running total equal to the counter's sum |
| LanguageAnalysis.LanguageAnalyzer.DetectLanguages | src/code_analyzer/analyzers/language_analyzer.py:11-39 | empty for no files, otherwise each language's share of the file count |
| LanguageAnalysis.LanguageAnalyzer.Distribute | src/code_analyzer/analyzers/language_analyzer.py:36-38 | `count / total_files * 100.0` per language |
| LanguageAnalysis.LanguageAnalyzer.CountSloc | src/code_analyzer/analyzers/language_analyzer.py:41-66 | source lines per language, and their sum as the total |
| LanguageAnalysis.BumpSum | src/code_analyzer/analyzers/language_analyzer.py:32 | `counter[lang] += n` adds n to the sum |
| LanguageAnalysis.BumpKeys | src/code_analyzer/analyzers/language_analyzer.py:32 | a new language goes last, an existing one keeps its place |
| LanguageAnalysis.BumpPositive | src/code_analyzer/analyzers/language_analyzer.py:32 | adding 1 keeps every count positive |
| LanguageAnalysis.BumpLookup | src/code_analyzer/analyzers/language_analyzer.py:32 | `counter[lang] += n` adds n to that language's count and leaves every other language's count unchanged |
| LanguageAnalysis.TallyFilesSum | src/code_analyzer/analyzers/language_analyzer.py:32-33 | the counts sum to the number of files read |
| LanguageAnalysis.TallyLinesSum | src/code_analyzer/analyzers/language_analyzer.py:63-64 | the line counts sum to the total SLOC of the files |
| LanguageAnalysis.TallyKeys | src/code_analyzer/analyzers/language_analyzer.py:32 | the counter's languages are exactly those of the files read |
| LanguageAnalysis.TallyDistinct | src/code_analyzer/analyzers/language_analyzer.py:32 | each language appears once in the counter |
| LanguageAnalysis.TallyFilesPositive | src/code_analyzer/analyzers/language_analyzer.py:32 | every counted language has at least one file |
| LanguageAnalysis.SharesTotal | src/code_analyzer/analyzers/language_analyzer.py:35-39 | the shares add up to exactly 100 |
| LanguageAnalysis.TallyValue | src/code_analyzer/analyzers/language_analyzer.py:20-33 | each language's count is the number of files classified as it (for `count_sloc`, lines 57-63, their non-blank lines), and an absent language has none |
| Cli.Distro | src/code_analyzer/cli.py:23-24 | what `detect_languages` returns: each language's share of the files read, empty when none is read |
| Cli.Merged | src/code_analyzer/cli.py:53-63 | the stack after step 7: dependency categories merged in, then each configuration technology filed under database or backend |
| Cli.Expected | src/code_analyzer/cli.py:53-63 | the independent reference for the merge: for each category, the stack's, the non-empty dependency category's and the filed configuration technologies, united |
| Cli.ArgMax | src/code_analyzer/cli.py:26 | the first index with the largest share |
| Cli.MainLang | src/code_analyzer/cli.py:26 | `None` exactly for an empty distribution, else the first language with the largest share |
| Cli.ActiveLangs | src/code_analyzer/cli.py:42 | no longer than the distribution; every element has endpoint patterns |
| Cli.ActiveLangsAppend | src/code_analyzer/cli.py:42 | the filter distributes over concatenation, so it keeps distribution order |
| Cli.ActiveLangsMember | src/code_analyzer/cli.py:42 | a language is active exactly when it has a share and endpoint patterns |
| Cli.PlaceAllGet | src/code_analyzer/cli.py:59-63 | filing configuration technologies adds exactly those filed under each category |
| Cli.WithDepsGet | src/code_analyzer/cli.py:54-56 | merging dependencies unions each non-empty category in |
| Cli.MergedIsExpected | src/code_analyzer/cli.py:54-63 | the merge is the category-by-category union of stack, non-empty dependency categories and filed configuration technologies |
| Cli.MergeOnlyAdds | src/code_analyzer/cli.py:54-63 | every stack entry survives, every non-empty dependency category is included, every configuration technology lands in database or backend |
| Cli.MergeAddsNothingElse | src/code_analyzer/cli.py:54-56 | an empty dependency category creates no key |
| Cli.MergeDeps | src/code_analyzer/cli.py:54-56 | the dependency loop computes the union |
| Cli.PlaceConfigs | src/code_analyzer/cli.py:59-63 | MySQL, PostgreSQL and Redis go to database, everything else to backend |
| Cli.Merge | src/code_analyzer/cli.py:54-63 | the two merge loops compute the merged stack |
| Cli.Languages | src/code_analyzer/cli.py:23-25 | the distribution is the share of each language among the files read, empty exactly when none is read; SLOC per language is the line tally, and the total is its sum |
| Cli.Technologies | src/code_analyzer/cli.py:29-35 | the stack is what a fresh analyzer for the main language gives with the file detector as written, holding the six categories; the dependencies are `analyze` for the main language, None when it raises |
| Cli.Endpoints | src/code_analyzer/cli.py:42-46 | the endpoints of the active languages in stable (file, line) order; the calls strictly sorted, exactly the calls found |
| Cli.Configs | src/code_analyzer/cli.py:49-51 | technologies and secrets of a fresh configuration detector over the registry |
| Cli.Assemble | src/code_analyzer/cli.py:41-76 | steps 5 to 8: endpoints, calls and configuration findings as their detectors give them, the stack merged with dependencies and configuration technologies, and the merge only adds |
| Cli.Analyze | src/code_analyzer/cli.py:22-76 | None exactly when the dependency analyzer raises; otherwise every one of the nine sections is what its step computes: distribution, SLOC, dependencies, the as-written stack merged with dependencies and configs, secrets None, endpoints and calls of the active languages, configuration findings |
| Cli.SectionsMerged | src/code_analyzer/cli.py:22-76 | in every completed report, languages appear exactly when a file is read; the stack holds the six categories, every non-empty dependency category and every configuration technology |
| Cli.LanguagesPresent | src/code_analyzer/cli.py:24 | reading a file gives a non-empty distribution |
| Utils.ReplacePairs | src/code_analyzer/utils.py:19 | `path.replace("\\\\", "/")`: each pair of backslashes, left to right without overlap, becomes '/' |
| Utils.ReplaceBackslashes | src/code_analyzer/utils.py:19 | the corrected replacement: every backslash becomes '/' |
| Utils.FormatPathAsWritten | src/code_analyzer/utils.py:13-19 | with a base and a relpath it starts with '/'; otherwise the pair replacement of the path, which is the path itself when it has no pair |
| Utils.PairFreeUnchanged | src/code_analyzer/utils.py:19 | a path without two consecutive backslashes is unchanged, lone backslashes included |
| Utils.NoPairLeft | src/code_analyzer/utils.py:19 | the replacement leaves no two consecutive backslashes |
| Utils.ExpandReplace | src/code_analyzer/utils.py:19 | on a path without '/', expanding each '/' back to two backslashes undoes the replacement |
| Utils.SingleBackslashKept | src/code_analyzer/utils.py:19 | `a\b` comes out unchanged |
| Utils.ReplaceBackslashesChars | src/code_analyzer/utils.py:19 | corrected replacement: no backslash remains, every other character stays in place |
| Utils.FormatPath | src/code_analyzer/utils.py:13-19 | corrected format_path: no backslash in the output; '/' exactly where the input had '/' or '\\' |
| Utils.SingleBackslashFixed | src/code_analyzer/utils.py:19 | the corrected version turns `a\b` into `a/b` |

## Left out

- Regular-expression semantics: patterns are abstract `Regex` values and matching is the `Engine` parameter. The regex bodies of the registry, `AJAX_PATTERN` and `LOG_FILES` are not part of this model.
- Invalid regular expressions at compile time (for code configs) are not modelled; every pattern is taken to compile.
- File-system internals are not modelled: `os.walk`'s order is the given tree, and `glob.glob(recursive=True)` is the `Glob` parameter. The `open` encoding behaviour (`errors='ignore'`) is reduced to readable (`Some(content)`) or unreadable (`None`), and partial reads are not modelled. `os.path.relpath` normalisation is left out; the relative path of a walked file is its sub-directory joined with its name.
- `utils.read_files` is a function over the tree (`FileTree.ReadFiles`), not a generator.
- JSON documents keep only their top level and the shape of each member: a dict as its set of keys, a list as its set of string elements, a string, or another scalar. Nested structure and non-string list elements are not modelled. The exceptions that `get` and `in` raise on a document that is not a dict, on a scalar `require` and on a `dependencies` that is not a dict are modelled.
- Case mapping (`lower`, `upper`) covers ASCII letters only.
- Floating-point percentages and confidences are exact `real` ratios, not IEEE doubles.
- `Cli.Technologies`: the main language `None` is passed to the dependency analyzer as `""`, which no table has as a key, so the outcome is the same.
- `Cli.Analyze`: a catalog category key missing from the category map, where `result[mapped]` raises KeyError in `analyze_stack`, is excluded by `StackAnalysis.KnownCategories`. No registry key is missing (`Patterns.CatalogCategoriesKnown`).
- `EndpointDetection.Record`: a 2-group pattern whose first group did not take part gives the verb `""` where Python would raise on `None.upper()`. `Patterns.EndpointGroupCounts` records that no registry pattern allows this.
- `StackAnalysis.ProbeOf`: a code config without a text pattern yields no probe. The registry has none (`Patterns.DetectorConfigsWellFormed`).
- Detector instances are rebuilt for every run of `analyze_stack` rather than kept as objects in the `detectors` list. The model keeps what each instance is built from.
- The secret analyzer (`find_secrets` is a stub returning `None`) and the report generator (console and JSON printing, HTML stub) are not part of this model. Their results appear only as the `secrets` section (`None`) of `Cli.Results`.
- Argument parsing, rendering and process exit status in `cli.py` are not part of this model.
- `LanguageAnalysis.LanguageAnalyzer.Classify`: case-insensitivity of the extension match is stated through `Lower` on both sides, not as a separate lemma.

## Findings

| source | as written | input that shows it | evidently intended | confidence | as-written member | corrected member |
|---|---|---|---|---|---|---|
| src/code_analyzer/detectors/file_detector.py:28 | `re.Pattern` is used but `re` is never imported, so `detect` raises NameError for every config; the stack analyzer catches it, so file and dir instances never fire and a Maven project is not reported as Maven | a directory holding `pom.xml` and Maven's `pom.xml` instance (`StackAnalysis.PomProbe`) | the pattern check, then the glob scan of the config's path | not executed | StackAnalysis.MavenMissedAsWritten | FileDetection.FileDetector.Detect |
| src/code_analyzer/utils.py:19 | `path.replace("\\\\", "/")` replaces two consecutive backslashes, so Windows paths with single separators keep them | `format_path("a\\b")` (one backslash) returns `a\b` | every backslash becomes '/' | not executed | Utils.SingleBackslashKept | Utils.FormatPath |
