/**
 * Path formatting for reports. The function is meant to turn Windows
 * separators into '/', but its replacement target is two consecutive
 * backslashes, so a path with single backslashes keeps them. Both the
 * replacement as written and the single-backslash replacement it evidently
 * intends are modelled; `os.path.relpath` is a parameter, `None` standing
 * for its `ValueError`.
 */
module Utils {
  import opened Wrappers

  type RelPath = (string, string) -> Option<string>

  // ---------------------------------------------------------------- as written

  /** `s.replace("\\\\", "/")`: each pair of backslashes, scanning left to right without overlap, becomes '/'. */
  function ReplacePairs(s: string): string
    decreases |s|
  {
    if |s| < 2 then s
    else if s[0] == '\\' && s[1] == '\\' then "/" + ReplacePairs(s[2..])
    else [s[0]] + ReplacePairs(s[1..])
  }

  /** `s` holds two consecutive backslashes somewhere. */
  predicate HasPair(s: string) {
    exists i :: 0 <= i < |s| - 1 && s[i] == '\\' && s[i + 1] == '\\'
  }

  /** `format_path(path, base_dir)` as written. */
  function FormatPathAsWritten(path: string, baseDir: Option<string>, relpath: RelPath): (r: string)
    ensures baseDir.Some? && baseDir.value != "" && relpath(path, baseDir.value).Some? ==> |r| > 0 && r[0] == '/'
    ensures !(baseDir.Some? && baseDir.value != "" && relpath(path, baseDir.value).Some?) ==> r == ReplacePairs(path)
    ensures !HasPair(path) && !(baseDir.Some? && baseDir.value != "" && relpath(path, baseDir.value).Some?) ==> r == path
  {
    PairFreeUnchanged(path);
    if baseDir.Some? && baseDir.value != "" then
      match relpath(path, baseDir.value)
      case Some(rel) => "/" + ReplacePairs(rel)
      case None => ReplacePairs(path)
    else ReplacePairs(path)
  }

  /** Nothing is replaced in a path without a pair, lone backslashes included. */
  lemma {:induction false} PairFreeUnchanged(s: string)
    ensures !HasPair(s) ==> ReplacePairs(s) == s
    decreases |s|
  {
    if |s| >= 2 && !HasPair(s) {
      assert !(s[0] == '\\' && s[1] == '\\');
      assert !HasPair(s[1..]) by {
        forall i | 0 <= i < |s[1..]| - 1
          ensures !(s[1..][i] == '\\' && s[1..][i + 1] == '\\')
        {
          assert s[1..][i] == s[i + 1] && s[1..][i + 1] == s[i + 2];
        }
      }
      PairFreeUnchanged(s[1..]);
    }
  }

  /** The output starts with a backslash only where the input starts with a lone one. */
  lemma LeadingBackslash(s: string)
    ensures |ReplacePairs(s)| > 0 && ReplacePairs(s)[0] == '\\' ==> |s| > 0 && s[0] == '\\' && (|s| < 2 || s[1] != '\\')
  {
  }

  /** The replacement leaves no pair behind: runs of backslashes are consumed two at a time. */
  lemma {:induction false} NoPairLeft(s: string)
    ensures !HasPair(ReplacePairs(s))
    decreases |s|
  {
    var r := ReplacePairs(s);
    if |s| < 2 {
      assert |r| < 2;
    } else if s[0] == '\\' && s[1] == '\\' {
      var t := ReplacePairs(s[2..]);
      NoPairLeft(s[2..]);
      assert r == "/" + t;
      forall i | 0 <= i < |r| - 1
        ensures !(r[i] == '\\' && r[i + 1] == '\\')
      {
        if i > 0 {
          assert r[i] == t[i - 1] && r[i + 1] == t[i];
        }
      }
    } else {
      var t := ReplacePairs(s[1..]);
      NoPairLeft(s[1..]);
      LeadingBackslash(s[1..]);
      assert r == [s[0]] + t;
      forall i | 0 <= i < |r| - 1
        ensures !(r[i] == '\\' && r[i + 1] == '\\')
      {
        if i > 0 {
          assert r[i] == t[i - 1] && r[i + 1] == t[i];
        }
      }
    }
  }

  /** Each '/' back to two backslashes. */
  function ExpandSlashes(s: string): (r: string)
    ensures |r| >= |s|
  {
    if s == [] then []
    else if s[0] == '/' then "\\\\" + ExpandSlashes(s[1..])
    else [s[0]] + ExpandSlashes(s[1..])
  }

  /** On a path without '/', the replacement is undone by expanding each '/' again. */
  lemma {:induction false} ExpandReplace(s: string)
    requires '/' !in s
    ensures ExpandSlashes(ReplacePairs(s)) == s
    decreases |s|
  {
    if |s| < 2 {
      if |s| == 1 {
        assert ReplacePairs(s) == [s[0]];
        assert ExpandSlashes([s[0]]) == [s[0]] + ExpandSlashes([]);
      }
    } else if s[0] == '\\' && s[1] == '\\' {
      assert '/' !in s[2..] by {
        forall c | c in s[2..] ensures c in s { }
      }
      ExpandReplace(s[2..]);
      var t := ReplacePairs(s[2..]);
      assert ("/" + t)[1..] == t;
      assert s == "\\\\" + s[2..];
    } else {
      assert '/' !in s[1..] by {
        forall c | c in s[1..] ensures c in s { }
      }
      ExpandReplace(s[1..]);
      var t := ReplacePairs(s[1..]);
      assert ([s[0]] + t)[1..] == t;
      assert s == [s[0]] + s[1..];
    }
  }

  /** A Windows path with single separators comes out unchanged. */
  lemma SingleBackslashKept()
    ensures FormatPathAsWritten("a\\b", None, (p, b) => None) == "a\\b"
  {
    assert !HasPair("a\\b");
  }

  // ---------------------------------------------------------------- corrected

  /** `s.replace("\\", "/")`: every backslash becomes '/'. */
  function ReplaceBackslashes(s: string): (r: string)
    ensures |r| == |s|
  {
    if s == [] then [] else [if s[0] == '\\' then '/' else s[0]] + ReplaceBackslashes(s[1..])
  }

  /** No backslash survives, every other character stays in place, and only backslashes turn into '/'. */
  lemma {:induction false} ReplaceBackslashesChars(s: string)
    ensures '\\' !in ReplaceBackslashes(s)
    ensures forall i :: 0 <= i < |s| ==> ReplaceBackslashes(s)[i] == (if s[i] == '\\' then '/' else s[i])
    decreases |s|
  {
    if s != [] {
      ReplaceBackslashesChars(s[1..]);
      var r := ReplaceBackslashes(s);
      assert r[1..] == ReplaceBackslashes(s[1..]);
      forall i | 0 <= i < |s|
        ensures r[i] == (if s[i] == '\\' then '/' else s[i])
      {
        if i > 0 {
          assert r[i] == r[1..][i - 1];
        }
      }
    }
  }

  /** `format_path(path, base_dir)` with the separator replacement it intends. */
  function FormatPath(path: string, baseDir: Option<string>, relpath: RelPath): (r: string)
    ensures '\\' !in r
    ensures baseDir.Some? && baseDir.value != "" && relpath(path, baseDir.value).Some? ==>
      r == "/" + ReplaceBackslashes(relpath(path, baseDir.value).value)
    ensures !(baseDir.Some? && baseDir.value != "" && relpath(path, baseDir.value).Some?) ==>
      |r| == |path| && forall i :: 0 <= i < |path| ==> (r[i] == '/' <==> path[i] == '\\' || path[i] == '/')
  {
    ReplaceBackslashesChars(path);
    if baseDir.Some? && baseDir.value != "" then
      match relpath(path, baseDir.value)
      case Some(rel) =>
        ReplaceBackslashesChars(rel);
        "/" + ReplaceBackslashes(rel)
      case None => ReplaceBackslashes(path)
    else ReplaceBackslashes(path)
  }

  /** The corrected formatting turns the single-separator path into a Unix one. */
  lemma SingleBackslashFixed()
    ensures FormatPath("a\\b", None, (p, b) => None) == "a/b"
  {
  }
}
