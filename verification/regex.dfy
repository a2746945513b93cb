/**
 * Compiled regular expressions as abstract matchers. What a pattern matches is
 * not modelled: an `Engine` gives, for a pattern and a text, the list that
 * Python's `finditer` returns.
 */
module Regex {
  import opened Wrappers

  /**
   * A compiled pattern. `key` is the pattern text for patterns compiled at run
   * time, and a name for the registry's precompiled patterns, whose bodies are
   * not modelled.
   */
  datatype Regex = Regex(key: string, ignoreCase: bool)

  /**
   * One match: its start offset, the matched text (group 0) and groups 1..n,
   * `None` for a group that did not take part in the match.
   */
  datatype Match = Match(start: nat, text: string, groups: seq<Option<string>>)

  /** `regex.finditer(text)`: the non-overlapping matches, from left to right. */
  type Engine = (Regex, string) -> seq<Match>

  /** `regex.search(text)`: the leftmost match, the first one `finditer` yields. */
  function Search(e: Engine, r: Regex, s: string): Option<Match> {
    if e(r, s) == [] then None else Some(e(r, s)[0])
  }

  /** `m.group(k)` for k >= 1. */
  function Group(m: Match, k: nat): Option<string> {
    if 1 <= k <= |m.groups| then m.groups[k - 1] else None
  }

  /** The first group holding a non-empty string, None when there is none. */
  function FirstNonEmpty(gs: seq<Option<string>>): Option<string> {
    if gs == [] then None
    else if gs[0].Some? && gs[0].value != "" then gs[0]
    else FirstNonEmpty(gs[1..])
  }

  predicate Captured(g: Option<string>) {
    g.Some? && g.value != ""
  }

  /** The first non-empty group is what its name says, and `None` means that no group captured text. */
  lemma {:induction false} FirstNonEmptyIsFirst(gs: seq<Option<string>>)
    ensures FirstNonEmpty(gs).None? <==> forall i :: 0 <= i < |gs| ==> !Captured(gs[i])
    ensures FirstNonEmpty(gs).Some? ==>
      exists k :: 0 <= k < |gs| && gs[k] == FirstNonEmpty(gs) && Captured(gs[k])
              && forall j :: 0 <= j < k ==> !Captured(gs[j])
  {
    if gs != [] && !Captured(gs[0]) {
      FirstNonEmptyIsFirst(gs[1..]);
      if FirstNonEmpty(gs).Some? {
        var k :| 0 <= k < |gs[1..]| && gs[1..][k] == FirstNonEmpty(gs[1..]) && Captured(gs[1..][k])
                 && forall j :: 0 <= j < k ==> !Captured(gs[1..][j]);
        assert gs[k + 1] == FirstNonEmpty(gs);
        forall j | 0 <= j < k + 1 ensures !Captured(gs[j]) {
          if j > 0 { assert gs[j] == gs[1..][j - 1]; }
        }
      } else {
        forall i | 0 <= i < |gs| ensures !Captured(gs[i]) {
          if i > 0 { assert gs[i] == gs[1..][i - 1]; }
        }
      }
    }
  }

  /**
   * `regex.findall(text)` for a pattern with two groups keeps the second item
   * of each match's tuple, an empty string when that group did not take part.
   */
  function FindAllSecond(e: Engine, r: Regex, s: string): (vs: seq<string>)
    ensures |vs| == |e(r, s)|
  {
    var ms := e(r, s);
    seq(|ms|, i requires 0 <= i < |ms| => Group(ms[i], 2).GetOr(""))
  }

  /**
   * What a real compiled pattern guarantees of its matches: exactly `groups`
   * groups, of which the first `required` (those outside any alternative or
   * optional part) always take part.
   */
  ghost predicate Shaped(e: Engine, r: Regex, groups: nat, required: nat) {
    forall s: string, i: int :: 0 <= i < |e(r, s)| ==>
      |e(r, s)[i].groups| == groups
      && forall j :: 0 <= j < required && j < groups ==> e(r, s)[i].groups[j].Some?
  }
}
