/**
 * The config detector: in every directory of the walk, each well-known
 * configuration file that is present is read, searched for the texts that
 * name a technology, and searched for credential assignments.
 */
module ConfigDetection {
  import opened Wrappers
  import opened Text
  import opened Regex
  import opened FileTree
  import opened Patterns

  /** `{config file name: {text: technology}}`, in insertion order. */
  type ConfigTable = seq<(string, seq<(string, string)>)>

  /** `{technology: [paths]}`, keys in first-insertion order. */
  type PathLists = seq<(string, seq<string>)>

  /** `detected` and `secrets` together. */
  datatype ConfigState = ConfigState(detected: PathLists, secrets: seq<(string, seq<string>)>)

  /** `config_patterns or CONFIG_PATTERNS`: a missing or empty table falls back to the registry's. */
  function Effective(table: Option<ConfigTable>): (r: ConfigTable)
    ensures r != []
    ensures table.Some? && table.value != [] ==> r == table.value
    ensures table.None? || table.value == [] ==> r == ConfigPatterns
  {
    if table.Some? && table.value != [] then table.value else ConfigPatterns
  }

  /** The first file of a directory listing with that name. */
  function Named(fs: seq<FileEntry>, name: string): (r: Option<FileEntry>)
    ensures r.None? <==> forall i :: 0 <= i < |fs| ==> fs[i].name != name
    ensures r.Some? ==> r.value in fs && r.value.name == name
  {
    if fs == [] then None
    else if fs[0].name == name then Some(fs[0])
    else Named(fs[1..], name)
  }

  /** The text of the named file of one directory, None when absent or unreadable. */
  function ConfigText(step: Step, name: string): Option<string> {
    match Named(step.files, name)
    case None => None
    case Some(f) => f.content
  }

  /** `detected.setdefault(tech, []).append(path)` */
  function AddPath(d: PathLists, tech: string, path: string): PathLists {
    if d == [] then [(tech, [path])]
    else if d[0].0 == tech then [(tech, d[0].1 + [path])] + d[1..]
    else [d[0]] + AddPath(d[1..], tech, path)
  }

  /** The paths recorded for a technology, `[]` when it has none. */
  function PathsFor(d: PathLists, tech: string): seq<string> {
    Lookup(d, tech).GetOr([])
  }

  /** The technology texts of one file, in table order. */
  function TechHits(d: PathLists, path: string, content: string, techs: seq<(string, string)>): PathLists {
    if techs == [] then d
    else
      var prev := TechHits(d, path, content, techs[..|techs| - 1]);
      var pt := techs[|techs| - 1];
      if Contains(content, pt.0) then AddPath(prev, pt.1, path) else prev
  }

  /**
   * One table entry in one directory: skipped when the file is absent or
   * unreadable; otherwise its technologies are recorded, and its credential
   * values when there is at least one.
   */
  function FileState(st: ConfigState, e: Engine, directory: string, step: Step, cfg: (string, seq<(string, string)>)): ConfigState {
    match ConfigText(step, cfg.0)
    case None => st
    case Some(text) =>
      var path := Join(Root(directory, step), cfg.0);
      var vs := FindAllSecond(e, PasswordPattern, text);
      ConfigState(TechHits(st.detected, path, text, cfg.1), st.secrets + (if vs != [] then [(path, vs)] else []))
  }

  function StepState(st: ConfigState, e: Engine, directory: string, step: Step, table: ConfigTable): ConfigState {
    if table == [] then st
    else FileState(StepState(st, e, directory, step, table[..|table| - 1]), e, directory, step, table[|table| - 1])
  }

  function WalkState(st: ConfigState, e: Engine, directory: string, walk: seq<Step>, table: ConfigTable): ConfigState {
    if walk == [] then st
    else StepState(WalkState(st, e, directory, walk[..|walk| - 1], table), e, directory, walk[|walk| - 1], table)
  }

  function TotalPatterns(table: ConfigTable): nat {
    if table == [] then 0 else TotalPatterns(table[..|table| - 1]) + |table[|table| - 1].1|
  }

  function Found(d: PathLists): nat {
    if d == [] then 0 else Found(d[..|d| - 1]) + |d[|d| - 1].1|
  }

  class ConfigDetector {
    const directory: string
    const configPatterns: ConfigTable
    var detected: PathLists
    var secrets: seq<(string, seq<string>)>

    constructor (directory: string, configPatterns: Option<ConfigTable>)
      ensures this.directory == directory && this.configPatterns == Effective(configPatterns)
      ensures detected == [] && secrets == []
    {
      this.directory := directory;
      this.configPatterns := if configPatterns.Some? && configPatterns.value != [] then configPatterns.value else ConfigPatterns;
      detected := [];
      secrets := [];
    }

    function State(): ConfigState
      reads this
    {
      ConfigState(detected, secrets)
    }

    method ScanTechs(path: string, content: string, techs: seq<(string, string)>)
      modifies this
      ensures detected == TechHits(old(detected), path, content, techs)
      ensures secrets == old(secrets)
    {
      ghost var d0 := detected;
      for k := 0 to |techs|
        invariant detected == TechHits(d0, path, content, techs[..k])
        invariant secrets == old(secrets)
      {
        assert techs[..k + 1][..k] == techs[..k];
        if Contains(content, techs[k].0) {
          detected := AddPath(detected, techs[k].1, path);
        }
      }
      assert techs[..|techs|] == techs;
    }

    method ScanStep(e: Engine, step: Step)
      modifies this
      ensures State() == StepState(old(State()), e, directory, step, configPatterns)
    {
      ghost var st0 := State();
      for j := 0 to |configPatterns|
        invariant State() == StepState(st0, e, directory, step, configPatterns[..j])
      {
        assert configPatterns[..j + 1][..j] == configPatterns[..j];
        var cfg := configPatterns[j];
        var text := ConfigText(step, cfg.0);
        if text.Some? {
          var path := Join(Root(directory, step), cfg.0);
          ScanTechs(path, text.value, cfg.1);
          var vs := FindAllSecond(e, PasswordPattern, text.value);
          if vs != [] {
            secrets := secrets + [(path, vs)];
          }
        }
      }
      assert configPatterns[..|configPatterns|] == configPatterns;
    }

    /**
     * `detect()`: records are added to what earlier calls left, never
     * cleared; the result is the technology map.
     */
    method Detect(walk: seq<Step>, e: Engine) returns (r: PathLists)
      modifies this
      ensures State() == WalkState(old(State()), e, directory, walk, configPatterns)
      ensures r == detected
    {
      ghost var st0 := State();
      for i := 0 to |walk|
        invariant State() == WalkState(st0, e, directory, walk[..i], configPatterns)
      {
        assert walk[..i + 1][..i] == walk[..i];
        ScanStep(e, walk[i]);
      }
      assert walk[..|walk|] == walk;
      r := detected;
    }

    /** `confidence()`: recorded paths over table texts, 0.0 when the table has no texts. */
    function Confidence(): (c: real)
      reads this
      ensures TotalPatterns(configPatterns) == 0 ==> c == 0.0
      ensures TotalPatterns(configPatterns) > 0 ==> c * TotalPatterns(configPatterns) as real == Found(detected) as real
    {
      var total := TotalPatterns(configPatterns);
      if total > 0 then Found(detected) as real / total as real else 0.0
    }
  }

  // ---------------------------------------------------------------- setdefault / append

  /** Appending a path extends exactly that technology's list, creating it when missing. */
  lemma {:induction false} AddPathLookup(d: PathLists, tech: string, path: string, u: string)
    ensures Lookup(AddPath(d, tech, path), u) ==
      if u == tech then Some(PathsFor(d, tech) + [path]) else Lookup(d, u)
    decreases |d|
  {
    if d == [] {
      var r := AddPath(d, tech, path);
      assert r == [(tech, [path])] && r[0].0 == tech && r[1..] == [];
      assert PathsFor(d, tech) == [];
      if u != tech {
        assert Lookup(r, u) == Lookup(r[1..], u);
      } else {
        assert PathsFor(d, tech) + [path] == [path];
      }
    } else if d[0].0 == tech {
      assert AddPath(d, tech, path)[0] == (tech, d[0].1 + [path]);
      assert AddPath(d, tech, path)[1..] == d[1..];
    } else {
      AddPathLookup(d[1..], tech, path, u);
      var r := AddPath(d, tech, path);
      assert r[0] == d[0] && r[1..] == AddPath(d[1..], tech, path);
      assert PathsFor(d, tech) == PathsFor(d[1..], tech);
    }
  }

  /** Keys keep their first-insertion order; a new technology goes last. */
  lemma {:induction false} AddPathKeys(d: PathLists, tech: string, path: string)
    ensures Keys(AddPath(d, tech, path)) == if tech in Keys(d) then Keys(d) else Keys(d) + [tech]
    decreases |d|
  {
    if d != [] && d[0].0 != tech {
      AddPathKeys(d[1..], tech, path);
      assert AddPath(d, tech, path)[1..] == AddPath(d[1..], tech, path);
    }
  }

  // ---------------------------------------------------------------- what is recorded

  /** The file gives `p` for technology `u`: it is present and readable, `p` is its path and one of its texts for `u` occurs in it. */
  predicate FileGives(directory: string, step: Step, cfg: (string, seq<(string, string)>), p: string, u: string) {
    ConfigText(step, cfg.0).Some? && p == Join(Root(directory, step), cfg.0)
    && exists k :: 0 <= k < |cfg.1| && cfg.1[k].1 == u && Contains(ConfigText(step, cfg.0).value, cfg.1[k].0)
  }

  predicate StepGives(directory: string, step: Step, table: ConfigTable, p: string, u: string) {
    exists j :: 0 <= j < |table| && FileGives(directory, step, table[j], p, u)
  }

  predicate WalkGives(directory: string, walk: seq<Step>, table: ConfigTable, p: string, u: string) {
    exists i :: 0 <= i < |walk| && StepGives(directory, walk[i], table, p, u)
  }

  lemma {:induction false} TechHitsMember(d: PathLists, path: string, content: string, techs: seq<(string, string)>, p: string, u: string)
    ensures p in PathsFor(TechHits(d, path, content, techs), u) <==>
      p in PathsFor(d, u) || (p == path && exists k :: 0 <= k < |techs| && techs[k].1 == u && Contains(content, techs[k].0))
    decreases |techs|
  {
    if techs != [] {
      var init := techs[..|techs| - 1];
      var prev := TechHits(d, path, content, init);
      var pt := techs[|techs| - 1];
      TechHitsMember(d, path, content, init, p, u);
      if Contains(content, pt.0) {
        AddPathLookup(prev, pt.1, path, u);
      }
      if p == path && (exists k :: 0 <= k < |techs| && techs[k].1 == u && Contains(content, techs[k].0)) {
        var k :| 0 <= k < |techs| && techs[k].1 == u && Contains(content, techs[k].0);
        if k < |init| {
          assert init[k] == techs[k];
        }
      }
      if exists k :: 0 <= k < |init| && init[k].1 == u && Contains(content, init[k].0) {
        var k :| 0 <= k < |init| && init[k].1 == u && Contains(content, init[k].0);
        assert techs[k] == init[k];
      }
    }
  }

  lemma FileStateMember(st: ConfigState, e: Engine, directory: string, step: Step, cfg: (string, seq<(string, string)>), p: string, u: string)
    ensures p in PathsFor(FileState(st, e, directory, step, cfg).detected, u) <==>
      p in PathsFor(st.detected, u) || FileGives(directory, step, cfg, p, u)
  {
    if ConfigText(step, cfg.0).Some? {
      TechHitsMember(st.detected, Join(Root(directory, step), cfg.0), ConfigText(step, cfg.0).value, cfg.1, p, u);
    }
  }

  lemma {:induction false} StepStateMember(st: ConfigState, e: Engine, directory: string, step: Step, table: ConfigTable, p: string, u: string)
    ensures p in PathsFor(StepState(st, e, directory, step, table).detected, u) <==>
      p in PathsFor(st.detected, u) || StepGives(directory, step, table, p, u)
    decreases |table|
  {
    if table != [] {
      var init := table[..|table| - 1];
      StepStateMember(st, e, directory, step, init, p, u);
      FileStateMember(StepState(st, e, directory, step, init), e, directory, step, table[|table| - 1], p, u);
      StepGivesSnoc(directory, step, table, p, u);
    }
  }

  lemma StepGivesSnoc(directory: string, step: Step, table: ConfigTable, p: string, u: string)
    requires table != []
    ensures StepGives(directory, step, table, p, u) <==>
      StepGives(directory, step, table[..|table| - 1], p, u) || FileGives(directory, step, table[|table| - 1], p, u)
  {
    ExistsSnoc(table, table[..|table| - 1], (cfg: (string, seq<(string, string)>)) => FileGives(directory, step, cfg, p, u));
  }

  /**
   * After a walk, a technology lists a path exactly when it listed it before
   * or some directory holds that table file, readable, containing one of
   * the technology's texts.
   */
  lemma {:induction false} WalkStateMember(st: ConfigState, e: Engine, directory: string, walk: seq<Step>, table: ConfigTable, p: string, u: string)
    ensures p in PathsFor(WalkState(st, e, directory, walk, table).detected, u) <==>
      p in PathsFor(st.detected, u) || WalkGives(directory, walk, table, p, u)
    decreases |walk|
  {
    if walk != [] {
      var init := walk[..|walk| - 1];
      WalkStateMember(st, e, directory, init, table, p, u);
      StepStateMember(WalkState(st, e, directory, init, table), e, directory, walk[|walk| - 1], table, p, u);
      WalkGivesSnoc(directory, walk, table, p, u);
    }
  }

  lemma WalkGivesSnoc(directory: string, walk: seq<Step>, table: ConfigTable, p: string, u: string)
    requires walk != []
    ensures WalkGives(directory, walk, table, p, u) <==>
      WalkGives(directory, walk[..|walk| - 1], table, p, u) || StepGives(directory, walk[|walk| - 1], table, p, u)
  {
    ExistsSnoc(walk, walk[..|walk| - 1], (step: Step) => StepGives(directory, step, table, p, u));
  }

  // ---------------------------------------------------------------- append-only

  lemma {:induction false} TechHitsExtends(d: PathLists, path: string, content: string, techs: seq<(string, string)>, u: string)
    ensures PathsFor(d, u) <= PathsFor(TechHits(d, path, content, techs), u)
    decreases |techs|
  {
    if techs != [] {
      var prev := TechHits(d, path, content, techs[..|techs| - 1]);
      TechHitsExtends(d, path, content, techs[..|techs| - 1], u);
      AddPathLookup(prev, techs[|techs| - 1].1, path, u);
    }
  }

  lemma StepStateExtends(st: ConfigState, e: Engine, directory: string, step: Step, table: ConfigTable, u: string)
    ensures PathsFor(st.detected, u) <= PathsFor(StepState(st, e, directory, step, table).detected, u)
    ensures st.secrets <= StepState(st, e, directory, step, table).secrets
    decreases |table|
  {
    if table != [] {
      var prev := StepState(st, e, directory, step, table[..|table| - 1]);
      StepStateExtends(st, e, directory, step, table[..|table| - 1], u);
      var cfg := table[|table| - 1];
      if ConfigText(step, cfg.0).Some? {
        TechHitsExtends(prev.detected, Join(Root(directory, step), cfg.0), ConfigText(step, cfg.0).value, cfg.1, u);
      }
    }
  }

  /** A later `detect()` only appends: every earlier list and the earlier secrets are prefixes of the new ones. */
  lemma {:induction false} WalkStateExtends(st: ConfigState, e: Engine, directory: string, walk: seq<Step>, table: ConfigTable, u: string)
    ensures PathsFor(st.detected, u) <= PathsFor(WalkState(st, e, directory, walk, table).detected, u)
    ensures st.secrets <= WalkState(st, e, directory, walk, table).secrets
    decreases |walk|
  {
    if walk != [] {
      WalkStateExtends(st, e, directory, walk[..|walk| - 1], table, u);
      StepStateExtends(WalkState(st, e, directory, walk[..|walk| - 1], table), e, directory, walk[|walk| - 1], table, u);
    }
  }

  // ---------------------------------------------------------------- secrets

  /** The secret record a file gives: its path and the second group of every credential match, when there is one. */
  predicate SecretOf(e: Engine, directory: string, step: Step, table: ConfigTable, s: (string, seq<string>)) {
    exists j :: 0 <= j < |table| && ConfigText(step, table[j].0).Some?
      && s == (Join(Root(directory, step), table[j].0), FindAllSecond(e, PasswordPattern, ConfigText(step, table[j].0).value))
  }

  lemma {:induction false} StepSecrets(st: ConfigState, e: Engine, directory: string, step: Step, table: ConfigTable, s: (string, seq<string>))
    requires s in StepState(st, e, directory, step, table).secrets
    ensures s in st.secrets || (s.1 != [] && SecretOf(e, directory, step, table, s))
    decreases |table|
  {
    if table != [] {
      var init := table[..|table| - 1];
      var prev := StepState(st, e, directory, step, init);
      if s in prev.secrets {
        StepSecrets(st, e, directory, step, init, s);
        if !(s in st.secrets) {
          var j :| 0 <= j < |init| && ConfigText(step, init[j].0).Some?
            && s == (Join(Root(directory, step), init[j].0), FindAllSecond(e, PasswordPattern, ConfigText(step, init[j].0).value));
          assert table[j] == init[j];
        }
      } else {
        assert table[|table| - 1].0 == table[|table| - 1].0;
      }
    }
  }

  /** Every secret record added by a walk names a readable table file and holds its non-empty credential values. */
  lemma {:induction false} WalkSecrets(st: ConfigState, e: Engine, directory: string, walk: seq<Step>, table: ConfigTable, s: (string, seq<string>))
    requires s in WalkState(st, e, directory, walk, table).secrets
    ensures s in st.secrets || (s.1 != [] && exists i :: 0 <= i < |walk| && SecretOf(e, directory, walk[i], table, s))
    decreases |walk|
  {
    if walk != [] {
      var init := walk[..|walk| - 1];
      var prev := WalkState(st, e, directory, init, table);
      StepSecrets(prev, e, directory, walk[|walk| - 1], table, s);
      if s in prev.secrets {
        WalkSecrets(st, e, directory, init, table, s);
        if !(s in st.secrets) {
          var i :| 0 <= i < |init| && SecretOf(e, directory, init[i], table, s);
          assert walk[i] == init[i];
        }
      }
    }
  }

  /** A readable table file with at least one credential match adds its record to the directory's secrets. */
  lemma {:induction false} StepSecretsComplete(st: ConfigState, e: Engine, directory: string, step: Step, table: ConfigTable, j: nat)
    requires j < |table| && ConfigText(step, table[j].0).Some?
    requires FindAllSecond(e, PasswordPattern, ConfigText(step, table[j].0).value) != []
    ensures (Join(Root(directory, step), table[j].0), FindAllSecond(e, PasswordPattern, ConfigText(step, table[j].0).value))
      in StepState(st, e, directory, step, table).secrets
    decreases |table|
  {
    var init := table[..|table| - 1];
    var prev := StepState(st, e, directory, step, init);
    if j < |init| {
      assert init[j] == table[j];
      StepSecretsComplete(st, e, directory, step, init, j);
      assert prev.secrets <= FileState(prev, e, directory, step, table[|table| - 1]).secrets;
    }
  }

  /**
   * Every readable table file of the walk with at least one credential match
   * has its record, the second group of each match in order, among the
   * secrets: with WalkSecrets, the secrets added are exactly these records.
   */
  lemma {:induction false} WalkSecretsComplete(st: ConfigState, e: Engine, directory: string, walk: seq<Step>, table: ConfigTable, i: nat, j: nat)
    requires i < |walk| && j < |table| && ConfigText(walk[i], table[j].0).Some?
    requires FindAllSecond(e, PasswordPattern, ConfigText(walk[i], table[j].0).value) != []
    ensures (Join(Root(directory, walk[i]), table[j].0), FindAllSecond(e, PasswordPattern, ConfigText(walk[i], table[j].0).value))
      in WalkState(st, e, directory, walk, table).secrets
    decreases |walk|
  {
    var init := walk[..|walk| - 1];
    var prev := WalkState(st, e, directory, init, table);
    if i < |init| {
      assert init[i] == walk[i];
      WalkSecretsComplete(st, e, directory, init, table, i, j);
      StepStateExtends(prev, e, directory, walk[|walk| - 1], table, "");
    } else {
      StepSecretsComplete(prev, e, directory, walk[i], table, j);
    }
  }

  // ---------------------------------------------------------------- what confidence() counts

  /** The table substrings of one file that occur in its text. */
  function Occurring(content: string, techs: seq<(string, string)>): nat {
    if techs == [] then 0
    else Occurring(content, techs[..|techs| - 1]) + (if Contains(content, techs[|techs| - 1].0) then 1 else 0)
  }

  /** The (file, substring) pairs of one directory whose substring occurs in the readable file. */
  function StepOccurring(step: Step, table: ConfigTable): nat {
    if table == [] then 0
    else
      var cfg := table[|table| - 1];
      StepOccurring(step, table[..|table| - 1]) + match ConfigText(step, cfg.0) { case None => 0 case Some(text) => Occurring(text, cfg.1) }
  }

  /** The same over the walk. */
  function WalkOccurring(walk: seq<Step>, table: ConfigTable): nat {
    if walk == [] then 0 else WalkOccurring(walk[..|walk| - 1], table) + StepOccurring(walk[|walk| - 1], table)
  }

  lemma {:induction false} FoundCons(x: (string, seq<string>), d: PathLists)
    ensures Found([x] + d) == |x.1| + Found(d)
    decreases |d|
  {
    if d != [] {
      assert ([x] + d)[..|[x] + d| - 1] == [x] + d[..|d| - 1];
      FoundCons(x, d[..|d| - 1]);
    }
  }

  /** `setdefault(tech, []).append(path)` records one more path. */
  lemma {:induction false} AddPathFound(d: PathLists, tech: string, path: string)
    ensures Found(AddPath(d, tech, path)) == Found(d) + 1
    decreases |d|
  {
    if d == [] {
      assert Found([(tech, [path])]) == Found([]) + 1;
    } else if d[0].0 == tech {
      FoundCons((tech, d[0].1 + [path]), d[1..]);
      FoundCons(d[0], d[1..]);
      assert d == [d[0]] + d[1..];
    } else {
      AddPathFound(d[1..], tech, path);
      FoundCons(d[0], AddPath(d[1..], tech, path));
      FoundCons(d[0], d[1..]);
      assert d == [d[0]] + d[1..];
    }
  }

  /** One file records one path per table substring that occurs in it. */
  lemma {:induction false} TechHitsFound(d: PathLists, path: string, content: string, techs: seq<(string, string)>)
    ensures Found(TechHits(d, path, content, techs)) == Found(d) + Occurring(content, techs)
    decreases |techs|
  {
    if techs != [] {
      TechHitsFound(d, path, content, techs[..|techs| - 1]);
      var pt := techs[|techs| - 1];
      if Contains(content, pt.0) {
        AddPathFound(TechHits(d, path, content, techs[..|techs| - 1]), pt.1, path);
      }
    }
  }

  lemma {:induction false} StepStateFound(st: ConfigState, e: Engine, directory: string, step: Step, table: ConfigTable)
    ensures Found(StepState(st, e, directory, step, table).detected) == Found(st.detected) + StepOccurring(step, table)
    decreases |table|
  {
    if table != [] {
      var init := table[..|table| - 1];
      var cfg := table[|table| - 1];
      StepStateFound(st, e, directory, step, init);
      var prev := StepState(st, e, directory, step, init);
      if ConfigText(step, cfg.0).Some? {
        TechHitsFound(prev.detected, Join(Root(directory, step), cfg.0), ConfigText(step, cfg.0).value, cfg.1);
      }
    }
  }

  /**
   * The numerator of `confidence()`: a walk records exactly one path per
   * (readable file, table substring) pair whose substring occurs in it.
   */
  lemma {:induction false} WalkStateFound(st: ConfigState, e: Engine, directory: string, walk: seq<Step>, table: ConfigTable)
    ensures Found(WalkState(st, e, directory, walk, table).detected) == Found(st.detected) + WalkOccurring(walk, table)
    decreases |walk|
  {
    if walk != [] {
      var init := walk[..|walk| - 1];
      WalkStateFound(st, e, directory, init, table);
      StepStateFound(WalkState(st, e, directory, init, table), e, directory, walk[|walk| - 1], table);
    }
  }
}
