/** The plugin classifier: whether a directory of the marketplace looks like
    a plugin, judged from its own name and the entries directly inside it. */
module Classifier {
  import opened FileSystem

  /** Entries whose presence marks a directory as a plugin, in the order the
      classifier tries them. */
  const PluginIndicators: seq<string> :=
    ["plugin.json", "skills", "hooks", "agents", "commands", "README.md"]

  /** Directory names that are never plugins. */
  const ExcludeNames: set<string> :=
    {".git", ".github", ".claude", ".claude-plugin", "node_modules", "__pycache__",
     ".venv", "tests", "test", "docs", "doc", "src", "dist", "build"}

  /** `(path / indicator).exists()`: the entry is there and is not a dangling
      link. */
  predicate HasEntry(entries: map<string, Node>, name: string) {
    name in entries && NodeExists(entries[name])
  }

  /** `any(... for indicator in indicators)`, tried left to right. */
  function AnyIndicator(entries: map<string, Node>, indicators: seq<string>): (r: bool)
    ensures r <==> exists k :: 0 <= k < |indicators| && HasEntry(entries, indicators[k])
  {
    if indicators == [] then false
    else HasEntry(entries, indicators[0]) || AnyIndicator(entries, indicators[1..])
  }

  /** A name the classifier rejects whatever the directory holds. */
  predicate IsExcludedName(name: string) {
    StartsWith(name, ".") || name in ExcludeNames
  }

  /** `is_plugin_dir`: a directory called `name` whose direct entries are
      `entries` is a plugin exactly when its name is neither hidden nor
      excluded and at least one indicator entry exists inside it. */
  function IsPluginDir(name: string, entries: map<string, Node>): (r: bool)
    ensures r <==> !IsExcludedName(name) && exists i :: i in PluginIndicators && HasEntry(entries, i)
  {
    if IsExcludedName(name) then false
    else AnyIndicator(entries, PluginIndicators)
  }

  /** A hidden or excluded name is never a plugin, whatever it contains. */
  lemma ExcludedNeverPlugin(name: string, entries: map<string, Node>)
    requires IsExcludedName(name)
    ensures !IsPluginDir(name, entries)
  {
  }

  /** Adding entries to a directory can only turn it into a plugin, never
      out of one: the indicators are looked for, never against. */
  lemma IsPluginDirMonotone(name: string, small: map<string, Node>, large: map<string, Node>)
    requires forall n :: n in small ==> n in large && large[n] == small[n]
    requires IsPluginDir(name, small)
    ensures IsPluginDir(name, large)
  {
    var i :| i in PluginIndicators && HasEntry(small, i);
    assert HasEntry(large, i);
  }

  /** Only indicator entries matter: two directories that agree on the six
      indicators are classified alike. */
  lemma OnlyIndicatorsMatter(name: string, a: map<string, Node>, b: map<string, Node>)
    requires forall i :: i in PluginIndicators ==> (HasEntry(a, i) <==> HasEntry(b, i))
    ensures IsPluginDir(name, a) == IsPluginDir(name, b)
  {
  }

  /** Examples of the classifier's behaviour: a directory holding only
      `plugin.json` qualifies; one holding only a `.git` directory does not;
      `tests` never does; a hidden name never does; a dangling `README.md`
      does not count. */
  lemma ClassifierExamples()
    ensures IsPluginDir("demo", map["plugin.json" := Node.File])
    ensures !IsPluginDir("demo", map[".git" := Dir(map[])])
    ensures !IsPluginDir("tests", map["plugin.json" := Node.File, "skills" := Dir(map[])])
    ensures !IsPluginDir(".hidden", map["commands" := Dir(map[])])
    ensures !IsPluginDir("demo", map["README.md" := Broken])
  {
    assert !IsExcludedName("demo") by {
      assert "demo"[0] != '.';
    }
    assert HasEntry(map["plugin.json" := Node.File], PluginIndicators[0]);
  }
}
