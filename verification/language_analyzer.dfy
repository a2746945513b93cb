/**
 * The language analyzer: classifies every readable file by extension or
 * file name, then reports the share of files per language and the source
 * lines per language.
 */
module LanguageAnalysis {
  import opened Wrappers
  import opened Text
  import opened FileTree
  import opened Patterns

  /** A Counter or `defaultdict(int)`: keys in first-insertion order with their counts. */
  type Counts = seq<(string, nat)>

  /** `[e.lower() for e in exts]` */
  function LowerAll(exts: seq<string>): (r: seq<string>)
    ensures |r| == |exts| && forall i :: 0 <= i < |exts| ==> r[i] == Lower(exts[i])
  {
    seq(|exts|, i requires 0 <= i < |exts| => Lower(exts[i]))
  }

  /** The entry's lower-cased list holds the lower-cased extension or the lower-cased file name. */
  predicate Matches(entry: (string, seq<string>), ext: string, filename: string) {
    ext in LowerAll(entry.1) || filename in LowerAll(entry.1)
  }

  /** The first entry of the table that matches. */
  function FirstMatch(table: seq<(string, seq<string>)>, ext: string, filename: string): (r: Option<nat>)
    ensures r.None? <==> forall i :: 0 <= i < |table| ==> !Matches(table[i], ext, filename)
    ensures r.Some? ==> r.value < |table| && Matches(table[r.value], ext, filename)
    ensures r.Some? ==> forall j :: 0 <= j < r.value ==> !Matches(table[j], ext, filename)
  {
    if table == [] then None
    else if Matches(table[0], ext, filename) then Some(0)
    else match FirstMatch(table[1..], ext, filename)
      case None => None
      case Some(i) => Some(i + 1)
  }

  /** The language of a path: the first entry matching its extension or base name, else "Other". */
  function LanguageOf(path: string, table: seq<(string, seq<string>)>): string {
    match FirstMatch(table, Lower(Ext(Basename(path))), Lower(Basename(path)))
    case None => "Other"
    case Some(i) => table[i].0
  }

  /** `counter[key] += n` */
  function Bump(c: Counts, key: string, n: nat): Counts {
    if c == [] then [(key, n)]
    else if c[0].0 == key then [(key, c[0].1 + n)] + c[1..]
    else [c[0]] + Bump(c[1..], key, n)
  }

  /** `counter[key]` on a Counter: the key's count, 0 for a key never counted. */
  function CountOf(c: Counts, key: string): nat {
    match Lookup(c, key)
    case None => 0
    case Some(n) => n
  }

  function Sum(c: Counts): nat {
    if c == [] then 0 else c[0].1 + Sum(c[1..])
  }

  /** The counts per language over the files yielded, by file (`lines` false) or by source lines (`lines` true). */
  function Tally(files: seq<(string, string)>, table: seq<(string, seq<string>)>, lines: bool): Counts {
    if files == [] then []
    else
      var f := files[|files| - 1];
      Bump(Tally(files[..|files| - 1], table, lines), LanguageOf(f.0, table), if lines then Sloc(f.1) else 1)
  }

  /** The share of each counted language in percent, in counter order. */
  function Shares(c: Counts, total: nat): (d: seq<(string, real)>)
    requires total > 0
    ensures |d| == |c|
    ensures forall i :: 0 <= i < |c| ==> d[i].0 == c[i].0
  {
    seq(|c|, i requires 0 <= i < |c| => (c[i].0, c[i].1 as real / total as real * 100.0))
  }

  class LanguageAnalyzer {
    const directory: string

    constructor (directory: string)
      ensures this.directory == directory
    {
      this.directory := directory;
    }

    /** The classification loop: the first table entry that matches, stopping there. */
    static method Classify(path: string, table: seq<(string, seq<string>)>) returns (lang: string)
      ensures lang == LanguageOf(path, table)
    {
      var ext := Lower(Ext(Basename(path)));
      var filename := Lower(Basename(path));
      lang := "Other";
      var i := 0;
      while i < |table|
        invariant 0 <= i <= |table|
        invariant forall j :: 0 <= j < i ==> !Matches(table[j], ext, filename)
      {
        var extsLower := LowerAll(table[i].1);
        if ext in extsLower || filename in extsLower {
          lang := table[i].0;
          FirstMatchAt(table, ext, filename, i);
          return;
        }
        i := i + 1;
      }
    }

    /** The counting loop, keeping a running total beside the counter. */
    static method Count(files: seq<(string, string)>, table: seq<(string, seq<string>)>, lines: bool) returns (counter: Counts, total: nat)
      ensures counter == Tally(files, table, lines)
      ensures total == Sum(counter)
    {
      counter := [];
      total := 0;
      for k := 0 to |files|
        invariant counter == Tally(files[..k], table, lines)
        invariant total == Sum(counter)
      {
        assert files[..k + 1][..k] == files[..k];
        var path := files[k].0;
        var lang := Classify(path, table);
        var n := if lines then Sloc(files[k].1) else 1;
        BumpSum(counter, lang, n);
        counter := Bump(counter, lang, n);
        total := total + n;
      }
      assert files[..|files|] == files;
    }

    /**
     * `detect_languages()`: each language's share of the readable files in
     * percent, in first-seen order; empty when there are no files.
     */
    method DetectLanguages(walk: seq<Step>) returns (distribution: seq<(string, real)>)
      ensures var c := Tally(ReadFiles(directory, walk), LangExtensions, false);
        && (ReadFiles(directory, walk) == [] ==> distribution == [])
        && (ReadFiles(directory, walk) != [] ==> distribution == Shares(c, |ReadFiles(directory, walk)|))
    {
      var files := ReadFiles(directory, walk);
      var counter, totalFiles := Count(files, LangExtensions, false);
      TallyFilesSum(files, LangExtensions);
      distribution := [];
      if totalFiles > 0 {
        distribution := Distribute(counter, totalFiles);
      }
    }

    /** Each language's file count as a percentage of all files, in the counter's order (its keys are distinct). */
    static method Distribute(counter: Counts, totalFiles: nat) returns (distribution: seq<(string, real)>)
      requires totalFiles > 0
      ensures distribution == Shares(counter, totalFiles)
    {
      distribution := [];
      for i := 0 to |counter|
        invariant |distribution| == i
        invariant forall j :: 0 <= j < i ==> distribution[j] == (counter[j].0, counter[j].1 as real / totalFiles as real * 100.0)
      {
        distribution := distribution + [(counter[i].0, counter[i].1 as real / totalFiles as real * 100.0)];
      }
    }

    /** `count_sloc()`: source lines per language and their total. */
    method CountSloc(walk: seq<Step>) returns (slocByLang: Counts, totalSloc: nat)
      ensures slocByLang == Tally(ReadFiles(directory, walk), LangExtensions, true)
      ensures totalSloc == Sum(slocByLang)
    {
      slocByLang, totalSloc := Count(ReadFiles(directory, walk), LangExtensions, true);
    }
  }

  lemma FirstMatchAt(table: seq<(string, seq<string>)>, ext: string, filename: string, i: nat)
    requires i < |table| && Matches(table[i], ext, filename)
    requires forall j :: 0 <= j < i ==> !Matches(table[j], ext, filename)
    ensures FirstMatch(table, ext, filename) == Some(i)
  {
  }

  // ---------------------------------------------------------------- counter updates

  lemma {:induction false} BumpSum(c: Counts, key: string, n: nat)
    ensures Sum(Bump(c, key, n)) == Sum(c) + n
    decreases |c|
  {
    if c == [] {
      assert Sum([(key, n)]) == n + Sum([]);
    } else if c[0].0 == key {
      var b := Bump(c, key, n);
      assert b[1..] == c[1..];
    } else {
      BumpSum(c[1..], key, n);
      var b := Bump(c, key, n);
      assert b[1..] == Bump(c[1..], key, n);
    }
  }

  /** `counter[key] += n` adds `n` to that key's count and leaves every other key's count as it was. */
  lemma {:induction false} BumpLookup(c: Counts, key: string, n: nat, u: string)
    ensures u == key ==> Lookup(Bump(c, key, n), u) == Some(CountOf(c, u) + n)
    ensures u != key ==> Lookup(Bump(c, key, n), u) == Lookup(c, u)
    decreases |c|
  {
    var b := Bump(c, key, n);
    if c == [] {
      assert b[1..] == [];
    } else if c[0].0 == key {
      assert b[1..] == c[1..];
    } else {
      BumpLookup(c[1..], key, n, u);
      assert b[1..] == Bump(c[1..], key, n);
    }
  }

  predicate Distinct(ks: seq<string>) {
    forall i, j :: 0 <= i < j < |ks| ==> ks[i] != ks[j]
  }

  /** A key keeps its place; a new key goes last. */
  lemma {:induction false} BumpKeys(c: Counts, key: string, n: nat)
    ensures Keys(Bump(c, key, n)) == if key in Keys(c) then Keys(c) else Keys(c) + [key]
    decreases |c|
  {
    var b := Bump(c, key, n);
    if c == [] {
      assert Keys(b) == [key];
    } else if c[0].0 == key {
      assert b[1..] == c[1..];
      assert Keys(b) == [key] + Keys(c[1..]);
    } else {
      BumpKeys(c[1..], key, n);
      assert b[1..] == Bump(c[1..], key, n);
      assert Keys(b) == [c[0].0] + Keys(Bump(c[1..], key, n));
      assert key in Keys(c) <==> key in Keys(c[1..]);
    }
  }

  lemma DistinctSnoc(ks: seq<string>, k: string)
    requires Distinct(ks) && k !in ks
    ensures Distinct(ks + [k])
  {
  }

  lemma {:induction false} BumpPositive(c: Counts, key: string, n: nat)
    requires n >= 1 && forall i :: 0 <= i < |c| ==> c[i].1 >= 1
    ensures forall i :: 0 <= i < |Bump(c, key, n)| ==> Bump(c, key, n)[i].1 >= 1
    decreases |c|
  {
    var b := Bump(c, key, n);
    if c != [] && c[0].0 != key {
      BumpPositive(c[1..], key, n);
      assert b[1..] == Bump(c[1..], key, n);
      forall i | 0 < i < |b| ensures b[i].1 >= 1 {
        assert b[i] == b[1..][i - 1];
      }
    } else if c != [] {
      assert b[1..] == c[1..];
      forall i | 0 < i < |b| ensures b[i].1 >= 1 {
        assert b[i] == c[i];
      }
    }
  }

  // ---------------------------------------------------------------- what the counters hold

  /** Every yielded file is counted once: the file counts add up to the number of files. */
  lemma {:induction false} TallyFilesSum(files: seq<(string, string)>, table: seq<(string, seq<string>)>)
    ensures Sum(Tally(files, table, false)) == |files|
    decreases |files|
  {
    if files != [] {
      var init := files[..|files| - 1];
      TallyFilesSum(init, table);
      BumpSum(Tally(init, table, false), LanguageOf(files[|files| - 1].0, table), 1);
    }
  }

  /** Per-file source lines: the line total is the sum of the files' non-blank line counts. */
  function TotalSloc(files: seq<(string, string)>): nat {
    if files == [] then 0 else TotalSloc(files[..|files| - 1]) + Sloc(files[|files| - 1].1)
  }

  lemma {:induction false} TallyLinesSum(files: seq<(string, string)>, table: seq<(string, seq<string>)>)
    ensures Sum(Tally(files, table, true)) == TotalSloc(files)
    decreases |files|
  {
    if files != [] {
      var init := files[..|files| - 1];
      TallyLinesSum(init, table);
      BumpSum(Tally(init, table, true), LanguageOf(files[|files| - 1].0, table), Sloc(files[|files| - 1].1));
    }
  }

  /**
   * Reference count for one language: how many of the files are classified
   * as `u` (`lines` false), or how many non-blank lines those files hold
   * (`lines` true).
   */
  function Weight(files: seq<(string, string)>, table: seq<(string, seq<string>)>, lines: bool, u: string): nat {
    if files == [] then 0
    else
      var f := files[|files| - 1];
      Weight(files[..|files| - 1], table, lines, u)
      + (if LanguageOf(f.0, table) == u then (if lines then Sloc(f.1) else 1) else 0)
  }

  /**
   * Each language's count is the number of its files, or their non-blank
   * lines; a language the counter does not hold has weight 0.
   */
  lemma {:induction false} TallyValue(files: seq<(string, string)>, table: seq<(string, seq<string>)>, lines: bool, u: string)
    ensures CountOf(Tally(files, table, lines), u) == Weight(files, table, lines, u)
    ensures Lookup(Tally(files, table, lines), u).None? ==> Weight(files, table, lines, u) == 0
    decreases |files|
  {
    if files != [] {
      var init := files[..|files| - 1];
      var f := files[|files| - 1];
      TallyValue(init, table, lines, u);
      BumpLookup(Tally(init, table, lines), LanguageOf(f.0, table), if lines then Sloc(f.1) else 1, u);
    }
  }

  /** `[f(x) for x in xs]` */
  function MapSeq<A, B>(xs: seq<A>, f: A -> B): (ys: seq<B>)
    ensures |ys| == |xs| && forall j :: 0 <= j < |xs| ==> ys[j] == f(xs[j])
  {
    seq(|xs|, j requires 0 <= j < |xs| => f(xs[j]))
  }

  lemma MapSnoc<A, B>(xs: seq<A>, f: A -> B)
    requires xs != []
    ensures MapSeq(xs, f) == MapSeq(xs[..|xs| - 1], f) + [f(xs[|xs| - 1])]
  {
    var init := xs[..|xs| - 1];
    forall j | 0 <= j < |init|
      ensures MapSeq(xs, f)[j] == MapSeq(init, f)[j]
    {
      assert init[j] == xs[j];
    }
  }

  function Classifier(table: seq<(string, seq<string>)>): ((string, string)) -> string {
    (f: (string, string)) => LanguageOf(f.0, table)
  }

  /** The language of each yielded file, in order. */
  function LangsOf(files: seq<(string, string)>, table: seq<(string, seq<string>)>): (ls: seq<string>)
    ensures |ls| == |files| && forall j :: 0 <= j < |files| ==> ls[j] == LanguageOf(files[j].0, table)
  {
    MapSeq(files, Classifier(table))
  }

  /**
   * The counter's keys are exactly the languages of the yielded files; by
   * lines a language is present even when its files have no source line.
   */
  lemma {:induction false} TallyKeys(files: seq<(string, string)>, table: seq<(string, seq<string>)>, lines: bool)
    ensures forall u :: u in Keys(Tally(files, table, lines)) <==> u in LangsOf(files, table)
    decreases |files|
  {
    if files != [] {
      var init := files[..|files| - 1];
      var last := files[|files| - 1];
      TallyKeys(init, table, lines);
      var lang := LanguageOf(last.0, table);
      var prev := Tally(init, table, lines);
      var n := if lines then Sloc(last.1) else 1;
      assert Tally(files, table, lines) == Bump(prev, lang, n);
      BumpKeys(prev, lang, n);
      MapSnoc(files, Classifier(table));
    }
  }

  /** Each language is counted under one key. */
  lemma {:induction false} TallyDistinct(files: seq<(string, string)>, table: seq<(string, seq<string>)>, lines: bool)
    ensures Distinct(Keys(Tally(files, table, lines)))
    decreases |files|
  {
    if files != [] {
      var init := files[..|files| - 1];
      var last := files[|files| - 1];
      TallyDistinct(init, table, lines);
      var prev := Tally(init, table, lines);
      var lang := LanguageOf(last.0, table);
      BumpKeys(prev, lang, if lines then Sloc(last.1) else 1);
      if lang !in Keys(prev) {
        DistinctSnoc(Keys(prev), lang);
      }
    }
  }

  /** Counted by file, every language present has at least one file. */
  lemma {:induction false} TallyFilesPositive(files: seq<(string, string)>, table: seq<(string, seq<string>)>)
    ensures forall i :: 0 <= i < |Tally(files, table, false)| ==> Tally(files, table, false)[i].1 >= 1
    decreases |files|
  {
    if files != [] {
      var init := files[..|files| - 1];
      TallyFilesPositive(init, table);
      BumpPositive(Tally(init, table, false), LanguageOf(files[|files| - 1].0, table), 1);
    }
  }

  function SumShares(d: seq<(string, real)>): real {
    if d == [] then 0.0 else d[0].1 + SumShares(d[1..])
  }

  lemma {:induction false} SharesSum(c: Counts, total: nat)
    requires total > 0
    ensures SumShares(Shares(c, total)) == Sum(c) as real / total as real * 100.0
    decreases |c|
  {
    if c != [] {
      SharesSum(c[1..], total);
      assert Shares(c, total)[1..] == Shares(c[1..], total);
      ShareSplit(c[0].1 as real, Sum(c[1..]) as real, total as real);
    }
  }

  lemma ShareSplit(a: real, b: real, t: real)
    requires t > 0.0
    ensures a / t * 100.0 + b / t * 100.0 == (a + b) / t * 100.0
  {
  }

  /** With at least one file, the shares add up to 100. */
  lemma SharesTotal(files: seq<(string, string)>, table: seq<(string, seq<string>)>)
    requires files != []
    ensures SumShares(Shares(Tally(files, table, false), |files|)) == 100.0
  {
    TallyFilesSum(files, table);
    SharesSum(Tally(files, table, false), |files|);
    ShareWhole(|files| as real);
  }

  lemma ShareWhole(t: real)
    requires t > 0.0
    ensures t / t * 100.0 == 100.0
  {
  }
}
