/**
 * Finding skills and commands by discovery phase (list_skills_by_discovery.py):
 * the YAML-like front matter of a markdown file read into a key/value map, the
 * `(discovery: <phase>)` test on its description, the names under which matches
 * are listed, and the choice of install path for an enabled plugin.
 */
module SkillDiscovery {
  import opened Wrappers
  import opened Strings
  import opened Json
  import opened Paths

  /** The delimiter that opens and closes a front-matter block. */
  const Fence: string := "---"

  /** The stripped text between the opening fence and the first fence at or after index 3,
      or `None` when the content does not open with a fence or never closes it. */
  function FrontmatterRegion(content: string): (r: Option<string>)
    ensures r.Some? <==> StartsWith(content, Fence) && Find(content, Fence, 3) != -1
  {
    if !StartsWith(content, Fence) then None
    else
      var end := Find(content, Fence, 3);
      if end == -1 then None else Some(Strip(content[3..end]))
  }

  /** The index of the first colon of a line, or -1. */
  function FirstColon(line: string): (k: int)
    ensures -1 <= k < |line|
    ensures k >= 0 ==> line[k] == ':'
    ensures forall j :: 0 <= j < |line| && (k == -1 || j < k) ==> line[j] != ':'
    decreases |line|
  {
    if line == [] then -1
    else if line[0] == ':' then 0
    else
      var k := FirstColon(line[1..]);
      if k == -1 then -1 else k + 1
  }

  /** The line carries an entry: it holds a colon. */
  predicate IsEntry(line: string) {
    FirstColon(line) != -1
  }

  /** `line.partition(':')`, both sides stripped. */
  function Entry(line: string): (kv: (string, string))
    requires IsEntry(line)
  {
    var k := FirstColon(line);
    (Strip(line[..k]), Strip(line[k + 1..]))
  }

  /** A line read as an entry, or `None` for a line without a colon. */
  function ParseLine(line: string): Option<(string, string)> {
    if IsEntry(line) then Some(Entry(line)) else None
  }

  function ParseLines(lines: seq<string>): (es: seq<Option<(string, string)>>)
    ensures |es| == |lines|
    ensures forall i :: 0 <= i < |lines| ==> es[i] == ParseLine(lines[i])
  {
    seq(|lines|, i requires 0 <= i < |lines| => ParseLine(lines[i]))
  }

  /** The map a run of entries builds, each entry overwriting an earlier one with the same key. */
  function Build(es: seq<Option<(string, string)>>): map<string, string>
    decreases |es|
  {
    if es == [] then map[]
    else
      var m := Build(es[..|es| - 1]);
      match es[|es| - 1]
      case None => m
      case Some((k, v)) => m[k := v]
  }

  /** What `extract_frontmatter` returns. */
  function Frontmatter(content: string): map<string, string> {
    match FrontmatterRegion(content)
    case None => map[]
    case Some(region) => Build(ParseLines(Split(region, "\n")))
  }

  /** `extract_frontmatter(content)`: fills the map line by line. */
  method ExtractFrontmatter(content: string) returns (result: map<string, string>)
    ensures result == Frontmatter(content)
    ensures !StartsWith(content, Fence) ==> result == map[]
    ensures Find(content, Fence, 3) == -1 ==> result == map[]
  {
    if !StartsWith(content, Fence) {
      return map[];
    }
    var end := Find(content, Fence, 3);
    if end == -1 {
      return map[];
    }
    var frontmatter := Strip(content[3..end]);
    var lines := Split(frontmatter, "\n");
    result := map[];
    for i := 0 to |lines|
      invariant result == Build(ParseLines(lines)[..i])
    {
      BuildStep(lines, i);
      if IsEntry(lines[i]) {
        var (key, value) := Entry(lines[i]);
        result := result[key := value];
      }
    }
    assert ParseLines(lines)[..|lines|] == ParseLines(lines);
  }

  /** Reading one more line: an entry sets its key, any other line changes nothing. */
  lemma BuildStep(lines: seq<string>, i: nat)
    requires i < |lines|
    ensures IsEntry(lines[i]) ==>
      Build(ParseLines(lines)[..i + 1]) == Build(ParseLines(lines)[..i])[Entry(lines[i]).0 := Entry(lines[i]).1]
    ensures !IsEntry(lines[i]) ==> Build(ParseLines(lines)[..i + 1]) == Build(ParseLines(lines)[..i])
  {
    assert ParseLines(lines)[..i + 1][..i] == ParseLines(lines)[..i];
  }

  /** The entry sets `key`. */
  predicate SetsKey(e: Option<(string, string)>, key: string) {
    e.Some? && e.value.0 == key
  }

  /** The entry at `j` is the last one that sets `key`. */
  predicate LastSetting(es: seq<Option<(string, string)>>, key: string, j: int) {
    && 0 <= j < |es|
    && SetsKey(es[j], key)
    && forall j' :: j < j' < |es| ==> !SetsKey(es[j'], key)
  }

  /** When the last entry does not set `key`, the last entry setting it is the same with or
      without that entry. */
  lemma LastSettingWithoutLast(es: seq<Option<(string, string)>>, key: string, j: int)
    requires es != [] && !SetsKey(es[|es| - 1], key)
    ensures LastSetting(es, key, j) <==> LastSetting(es[..|es| - 1], key, j)
  {
    var init := es[..|es| - 1];
    if 0 <= j < |init| {
      assert init[j] == es[j];
      assert forall j' :: j < j' < |init| ==> init[j'] == es[j'];
    }
  }

  /** A key is in the map exactly when some entry sets it, and it holds the value of the last
      entry that does: later duplicates win. */
  lemma {:induction false} BuildLastWins(es: seq<Option<(string, string)>>, key: string)
    ensures key in Build(es) <==> exists j :: LastSetting(es, key, j)
    ensures forall j :: LastSetting(es, key, j) ==> Build(es)[key] == es[j].value.1
    decreases |es|
  {
    if es != [] {
      var n := |es| - 1;
      var init := es[..n];
      BuildLastWins(init, key);
      if SetsKey(es[n], key) {
        assert LastSetting(es, key, n);
        forall j | LastSetting(es, key, j) ensures j == n {
        }
      } else {
        forall j ensures LastSetting(es, key, j) <==> LastSetting(init, key, j) {
          LastSettingWithoutLast(es, key, j);
        }
      }
    }
  }

  /** Every entry's key is in the map: no line with a colon is lost. */
  lemma {:induction false} EveryEntryLands(es: seq<Option<(string, string)>>, i: nat)
    requires i < |es| && es[i].Some?
    ensures es[i].value.0 in Build(es)
    decreases |es|
  {
    var n := |es| - 1;
    if !SetsKey(es[n], es[i].value.0) {
      var init := es[..n];
      assert init[i] == es[i];
      EveryEntryLands(init, i);
    }
  }

  /** Read on the lines themselves: lines without a colon are ignored, every line with one
      puts its key in the map, and a key holds the value of the last line that sets it. */
  lemma FrontmatterLinesLastWins(lines: seq<string>, key: string, j: nat)
    requires j < |lines| && IsEntry(lines[j]) && Entry(lines[j]).0 == key
    requires forall j' :: j < j' < |lines| && IsEntry(lines[j']) ==> Entry(lines[j']).0 != key
    ensures key in Build(ParseLines(lines))
    ensures Build(ParseLines(lines))[key] == Entry(lines[j]).1
  {
    var es := ParseLines(lines);
    assert LastSetting(es, key, j);
    BuildLastWins(es, key);
  }

  /** Content that opens with six dashes closes its front matter at once: nothing is read. */
  lemma {:induction false} SixDashesGiveNothing(content: string)
    requires StartsWith(content, "------")
    ensures Frontmatter(content) == map[]
  {
    assert content[..3] == Fence;
    assert IsAt(content, Fence, 3) by {
      assert content[3..6] == "------"[3..6];
    }
    assert Find(content, Fence, 3) == 3;
    assert Strip(content[3..3]) == "";
    assert Split("", "\n") == [""];
    var es := ParseLines([""]);
    assert es[0] == None;
    assert es[..0] == [];
  }

  /** A line is an entry exactly when it holds a colon, and it splits at its first one:
      the key side holds no colon. */
  lemma EntryIsPartition(line: string)
    ensures IsEntry(line) <==> ':' in line
    ensures IsEntry(line) ==>
      var k := FirstColon(line);
      && ':' !in line[..k]
      && line == line[..k] + ":" + line[k + 1..]
  {
    var k := FirstColon(line);
    if k >= 0 {
      SplitAtColon(line, k);
    } else {
      NoColon(line);
    }
  }

  /** A line splits around its first colon. */
  lemma SplitAtColon(line: string, k: nat)
    requires k < |line| && line[k] == ':'
    requires forall j :: 0 <= j < k ==> line[j] != ':'
    ensures ':' in line && ':' !in line[..k]
    ensures line == line[..k] + ":" + line[k + 1..]
  {
    assert line == line[..k] + line[k..];
    assert line[k..] == [line[k]] + line[k + 1..];
    forall c | c in line[..k] ensures c != ':' {
      var j :| 0 <= j < k && line[..k][j] == c;
    }
  }

  /** A line none of whose characters is a colon holds no colon. */
  lemma NoColon(line: string)
    requires forall j :: 0 <= j < |line| ==> line[j] != ':'
    ensures ':' !in line
  {
  }

  // -------------------------------------------------------------- matching and names

  /** `f'(discovery: {phase})'`. */
  function DiscoveryPattern(phase: string): string {
    "(discovery: " + phase + ")"
  }

  /** `fm.get('description', '')`. */
  function Description(fm: map<string, string>): string {
    if "description" in fm then fm["description"] else ""
  }

  /** An entry is listed when its description holds the phase's pattern. */
  predicate MatchesPhase(fm: map<string, string>, phase: string) {
    Contains(Description(fm), DiscoveryPattern(phase))
  }

  /** A description mentioning the pattern matches and a file without a description never does. */
  lemma {:induction false} MatchingIsContainment(fm: map<string, string>, phase: string)
    ensures MatchesPhase(fm, phase) <==> exists i :: IsAt(Description(fm), DiscoveryPattern(phase), i)
    ensures "description" !in fm ==> !MatchesPhase(fm, phase)
  {
    var d := Description(fm);
    var p := DiscoveryPattern(phase);
    if exists i :: IsAt(d, p, i) {
      var i :| IsAt(d, p, i);
      ContainsAt(d, p, i);
    }
  }

  /** A phase's pattern closes right after the phase, so a description matching phase `p`
      matches no phase of which `p` is a strict prefix at the same place. */
  lemma PatternEndsThePhase(phase: string)
    ensures var p := DiscoveryPattern(phase);
      |p| == |phase| + 13 && p[..12] == "(discovery: " && p[12..|p| - 1] == phase && p[|p| - 1] == ')'
  {
  }

  /** The name a command file is listed under: `/` and its stem. */
  function CommandDisplayName(fileName: string): (r: string)
    ensures |r| >= 1 && r[0] == '/'
  {
    "/" + Stem(fileName)
  }

  /** A command file `name.md` is listed as `/name`. */
  lemma CommandNameDropsExtension(name: string)
    requires name != []
    ensures CommandDisplayName(name + ".md") == "/" + name
  {
    StemOfExtension(name, "md");
    assert name + ".md" == name + "." + "md";
  }

  /** `plugin_key.split('@')[0]`: the plugin's key up to its first `@`. */
  function PluginName(key: string): (r: string)
    ensures '@' !in r
  {
    var parts := Split(key, "@");
    SplitPiecesAreFree(key, "@");
    assert parts[0] in parts;
    NoOccurrenceNoChar(parts[0], '@');
    parts[0]
  }

  /** The name a plugin's skill is listed under: `<plugin name>:<skill directory>`. */
  function PluginSkillDisplayName(key: string, skillDir: string): string {
    PluginName(key) + ":" + skillDir
  }

  /** The plugin name is the key's text before its first `@`, or the whole key without one,
      and a plugin's skill is listed under that name. */
  lemma {:induction false} PluginNameIsPrefix(name: string, marketplace: string, skillDir: string)
    requires '@' !in name
    ensures PluginName(name) == name
    ensures PluginName(name + "@" + marketplace) == name
    ensures PluginSkillDisplayName(name + "@" + marketplace, skillDir) == name + ":" + skillDir
  {
    SplitNoSeparator(name);
    var key := name + "@" + marketplace;
    assert key[..|name|] == name;
    SplitFirstPiece(key, |name|);
  }

  /** With the first `@` at `k`, the first piece of the split is the text before it. */
  lemma {:induction false} SplitFirstPiece(key: string, k: nat)
    requires k < |key| && key[k] == '@' && '@' !in key[..k]
    ensures Split(key, "@")[0] == key[..k]
  {
    forall i | 0 <= i < k ensures !IsAt(key, "@", i) {
      assert key[i] == key[..k][i];
    }
    assert IsAt(key, "@", k) by {
      assert key[k..k + 1] == [key[k]];
    }
    assert Find(key, "@", 0) == k;
  }

  /** A key without `@` is its own first piece. */
  lemma {:induction false} SplitNoSeparator(key: string)
    requires '@' !in key
    ensures Split(key, "@") == [key]
  {
    forall i | 0 <= i ensures !IsAt(key, "@", i) {
      if i + 1 <= |key| {
        assert key[i..i + 1] == [key[i]];
      }
    }
    assert Find(key, "@", 0) == -1;
  }

  // ---------------------------------------------------------------- install paths

  /**
   * What the install lookup needs so that nothing raises: an enabled plugin's
   * truthy install list is a list whose last entry is a `dict` with a string
   * `installPath` (or none).
   */
  predicate InstallsOk(installs: Json) {
    Truthy(installs) ==>
      && installs.JArr?
      && installs.a[|installs.a| - 1].JObj?
      && GetOr(installs.a[|installs.a| - 1].o, "installPath", JStr("")).JStr?
  }

  /** The install path used for one entry of `enabledPlugins`, or `None` when it is skipped:
      disabled, not installed, or with an empty install list. */
  function InstallPath(key: string, isEnabled: Json, plugins: map<string, Json>): (r: Option<string>)
    requires key in plugins && Truthy(isEnabled) ==> InstallsOk(plugins[key])
    ensures r.Some? <==> Truthy(isEnabled) && key in plugins && Truthy(plugins[key])
  {
    if !Truthy(isEnabled) then None
    else if key !in plugins then None
    else
      var installs := plugins[key];
      if !Truthy(installs) then None
      else Some(GetOr(installs.a[|installs.a| - 1].o, "installPath", JStr("")).s)
  }

  /** The latest install wins: for an enabled plugin only the last entry of the list is
      consulted, whatever else it or the earlier entries hold, and a last entry without
      `installPath` gives the empty path. */
  lemma LatestInstallWins(key: string, isEnabled: Json, plugins: map<string, Json>,
                          earlier: seq<Json>, last: map<string, Json>, path: string)
    requires key in plugins && Truthy(isEnabled)
    requires plugins[key] == JArr(earlier + [JObj(last)])
    requires GetOr(last, "installPath", JStr("")) == JStr(path)
    ensures InstallPath(key, isEnabled, plugins) == Some(path)
    ensures "installPath" !in last ==> path == ""
  {
    var a := earlier + [JObj(last)];
    assert a[|a| - 1] == JObj(last);
  }

  /** Which plugins are scanned, in the order of `enabledPlugins`, with their install paths. */
  function ScannedPlugins(enabled: seq<(string, Json)>, plugins: map<string, Json>): (r: seq<(string, string)>)
    requires forall i :: 0 <= i < |enabled| ==>
      (enabled[i].0 in plugins && Truthy(enabled[i].1) ==> InstallsOk(plugins[enabled[i].0]))
    ensures |r| <= |enabled|
    decreases |enabled|
  {
    if enabled == [] then []
    else
      var rest := ScannedPlugins(enabled[..|enabled| - 1], plugins);
      var (key, on) := enabled[|enabled| - 1];
      match InstallPath(key, on, plugins)
      case None => rest
      case Some(path) => rest + [(key, path)]
  }

  /** A plugin is scanned exactly when one of its entries passes the install lookup, with the
      path that lookup chose. */
  lemma {:induction false} ScannedPluginsAreSelected(enabled: seq<(string, Json)>, plugins: map<string, Json>)
    requires forall i :: 0 <= i < |enabled| ==>
      (enabled[i].0 in plugins && Truthy(enabled[i].1) ==> InstallsOk(plugins[enabled[i].0]))
    ensures forall e :: e in ScannedPlugins(enabled, plugins) <==>
      exists i :: 0 <= i < |enabled| && enabled[i].0 == e.0 && InstallPath(enabled[i].0, enabled[i].1, plugins) == Some(e.1)
    decreases |enabled|
  {
    if enabled != [] {
      var init := enabled[..|enabled| - 1];
      ScannedPluginsAreSelected(init, plugins);
      forall e ensures e in ScannedPlugins(enabled, plugins) <==>
        exists i :: 0 <= i < |enabled| && enabled[i].0 == e.0 && InstallPath(enabled[i].0, enabled[i].1, plugins) == Some(e.1)
      {
        if exists i :: 0 <= i < |enabled| && enabled[i].0 == e.0 && InstallPath(enabled[i].0, enabled[i].1, plugins) == Some(e.1) {
          var i :| 0 <= i < |enabled| && enabled[i].0 == e.0 && InstallPath(enabled[i].0, enabled[i].1, plugins) == Some(e.1);
          if i < |init| {
            assert init[i] == enabled[i];
          }
        }
        if e in ScannedPlugins(init, plugins) {
          var i :| 0 <= i < |init| && init[i].0 == e.0 && InstallPath(init[i].0, init[i].1, plugins) == Some(e.1);
          assert enabled[i] == init[i];
        }
      }
    }
  }
}
