/** The marketplace scan: which directories of the marketplace tree become
    plugin candidates and which of their files become workflow candidates,
    and the link names they are given. The sync loop walks the same tree;
    these functions say what set of names that walk must produce. */
module Scanner {
  import opened FileSystem
  import opened Classifier
  import opened Naming

  /** A marketplace entry the scan descends into: a directory that is not
      hidden. */
  predicate IsMarketplace(name: string, n: Node) {
    n.Dir? && !StartsWith(name, ".")
  }

  /** Where a marketplace keeps its plugins: its `plugins` subdirectory if
      it has one, else the marketplace directory itself. */
  function PluginBase(mpEntries: map<string, Node>): map<string, Node> {
    if "plugins" in mpEntries && mpEntries["plugins"].Dir? then mpEntries["plugins"].entries
    else mpEntries
  }

  /** An entry of a plugin base that is bridged: a directory that passes the
      classifier. */
  predicate IsPluginSource(name: string, n: Node) {
    n.Dir? && IsPluginDir(name, n.entries)
  }

  /** The glob `*.md`: any entry whose name ends in `.md`, whatever kind of
      entry it is. */
  predicate IsMarkdownName(f: string) {
    EndsWith(f, ".md")
  }

  /** Command files of a plugin: the `*.md` entries directly inside its
      `commands` directory, if it has one. */
  function CommandFiles(pluginEntries: map<string, Node>): set<string> {
    if "commands" in pluginEntries && pluginEntries["commands"].Dir? then
      set f | f in pluginEntries["commands"].entries && IsMarkdownName(f)
    else {}
  }

  /** Plugin link names for the plugins among `names` in plugin base `base`
      of marketplace `mp`. */
  function PluginIdsAmong(mp: string, base: map<string, Node>, names: set<string>): set<string> {
    set p | p in names && p in base && IsPluginSource(p, base[p]) :: PluginId(mp, p)
  }

  /** Workflow link names for the files `files` of plugin `plugin` of
      marketplace `mp`. */
  function WorkflowIdsOf(mp: string, plugin: string, files: set<string>): set<string> {
    set f | f in files :: WorkflowId(mp, plugin, f)
  }

  /** Workflow link names for the command files of the plugins among
      `names` in plugin base `base` of marketplace `mp`. */
  function WorkflowIdsAmong(mp: string, base: map<string, Node>, names: set<string>): set<string> {
    set p, id | p in names && p in base && IsPluginSource(p, base[p])
                && id in WorkflowIdsOf(mp, p, CommandFiles(base[p].entries))
      :: id
  }

  /** Plugin link names contributed by the marketplaces among `names`. */
  function PluginIdsFrom(market: map<string, Node>, names: set<string>): set<string> {
    set mp, id | mp in names && mp in market && IsMarketplace(mp, market[mp])
                 && id in PluginIdsAmong(mp, PluginBase(market[mp].entries), PluginBase(market[mp].entries).Keys)
      :: id
  }

  /** Workflow link names contributed by the marketplaces among `names`. */
  function WorkflowIdsFrom(market: map<string, Node>, names: set<string>): set<string> {
    set mp, id | mp in names && mp in market && IsMarketplace(mp, market[mp])
                 && id in WorkflowIdsAmong(mp, PluginBase(market[mp].entries), PluginBase(market[mp].entries).Keys)
      :: id
  }

  /** The names a sync of the marketplace whose root entries are `market`
      must find in the plugin destination. */
  function ValidPluginIds(market: map<string, Node>): set<string> {
    PluginIdsFrom(market, market.Keys)
  }

  /** The names a sync must find among the bridge-owned entries of the
      workflow destination. */
  function ValidWorkflowIds(market: map<string, Node>): set<string> {
    WorkflowIdsFrom(market, market.Keys)
  }

  /** The candidates the walk meets, before they are named: one
      (marketplace, plugin) pair per classified directory of a plugin base,
      one (marketplace, plugin, file) triple per command file of such a
      directory. The sync records one name per candidate, so these sets
      count the names it records (and reports as bridged). */
  function PluginSourcesAmong(mp: string, base: map<string, Node>, names: set<string>): (r: set<(string, string)>)
    ensures forall s :: s in r ==> s.0 == mp && s.1 in names
  {
    set p | p in names && p in base && IsPluginSource(p, base[p]) :: (mp, p)
  }

  function WorkflowSourcesOf(mp: string, p: string, files: set<string>): set<(string, string, string)> {
    set f | f in files :: (mp, p, f)
  }

  function WorkflowSourcesAmong(mp: string, base: map<string, Node>, names: set<string>): (r: set<(string, string, string)>)
    ensures forall t :: t in r ==> t.0 == mp && t.1 in names
  {
    set p, f | p in names && p in base && IsPluginSource(p, base[p]) && f in CommandFiles(base[p].entries)
      :: (mp, p, f)
  }

  function PluginSourcesFrom(market: map<string, Node>, names: set<string>): (r: set<(string, string)>)
    ensures forall s :: s in r ==> s.0 in names
  {
    set mp, s | mp in names && mp in market && IsMarketplace(mp, market[mp])
                && s in PluginSourcesAmong(mp, PluginBase(market[mp].entries), PluginBase(market[mp].entries).Keys)
      :: s
  }

  function WorkflowSourcesFrom(market: map<string, Node>, names: set<string>): (r: set<(string, string, string)>)
    ensures forall t :: t in r ==> t.0 in names
  {
    set mp, t | mp in names && mp in market && IsMarketplace(mp, market[mp])
                && t in WorkflowSourcesAmong(mp, PluginBase(market[mp].entries), PluginBase(market[mp].entries).Keys)
      :: t
  }

  /** The plugin candidates of the whole marketplace tree. */
  function PluginSources(market: map<string, Node>): set<(string, string)> {
    PluginSourcesFrom(market, market.Keys)
  }

  /** The workflow candidates of the whole marketplace tree. */
  function WorkflowSources(market: map<string, Node>): set<(string, string, string)> {
    WorkflowSourcesFrom(market, market.Keys)
  }

  /** A plugin has one workflow candidate per command file. */
  lemma {:induction false} WorkflowSourcesOfCard(mp: string, p: string, files: set<string>)
    ensures |WorkflowSourcesOf(mp, p, files)| == |files|
    decreases files
  {
    if files != {} {
      var f :| f in files;
      var rest := files - {f};
      WorkflowSourcesOfCard(mp, p, rest);
      assert WorkflowSourcesOf(mp, p, files) == WorkflowSourcesOf(mp, p, rest) + {(mp, p, f)};
      assert (mp, p, f) !in WorkflowSourcesOf(mp, p, rest);
    }
  }

  /** One more entry of a plugin base adds one plugin candidate when it is
      a plugin, and none otherwise. */
  lemma PluginSourcesAmongAdd(mp: string, base: map<string, Node>, names: set<string>, p: string)
    requires p in base && p !in names
    ensures |PluginSourcesAmong(mp, base, names + {p})|
            == |PluginSourcesAmong(mp, base, names)| + (if IsPluginSource(p, base[p]) then 1 else 0)
  {
    var a := PluginSourcesAmong(mp, base, names);
    var x := if IsPluginSource(p, base[p]) then {(mp, p)} else {};
    assert PluginSourcesAmong(mp, base, names + {p}) == a + x;
    assert a * x == {};
  }

  /** One more entry of a plugin base adds one workflow candidate per
      command file when it is a plugin, and none otherwise. */
  lemma WorkflowSourcesAmongAdd(mp: string, base: map<string, Node>, names: set<string>, p: string)
    requires p in base && p !in names
    ensures |WorkflowSourcesAmong(mp, base, names + {p})|
            == |WorkflowSourcesAmong(mp, base, names)|
               + (if IsPluginSource(p, base[p]) then |CommandFiles(base[p].entries)| else 0)
  {
    var a := WorkflowSourcesAmong(mp, base, names);
    var x := if IsPluginSource(p, base[p]) then WorkflowSourcesOf(mp, p, CommandFiles(base[p].entries)) else {};
    var b := WorkflowSourcesAmong(mp, base, names + {p});
    forall t | t in b ensures t in a + x {
      if t.1 != p {
        assert t in a;
      }
    }
    assert b == a + x;
    assert a * x == {};
    if IsPluginSource(p, base[p]) {
      WorkflowSourcesOfCard(mp, p, CommandFiles(base[p].entries));
    }
  }

  /** Before any marketplace is visited, nothing is found. */
  lemma NothingFromNone(market: map<string, Node>)
    ensures PluginIdsFrom(market, {}) == {} && WorkflowIdsFrom(market, {}) == {}
    ensures PluginSourcesFrom(market, {}) == {} && WorkflowSourcesFrom(market, {}) == {}
  {
  }

  /** A plugin candidate of a marketplace tree comes from the marketplace
      it names. */
  lemma PluginSourcesFromMember(market: map<string, Node>, names: set<string>, s: (string, string))
    ensures s in PluginSourcesFrom(market, names)
            <==> s.0 in names && s.0 in market && IsMarketplace(s.0, market[s.0])
                 && s in PluginSourcesAmong(s.0, PluginBase(market[s.0].entries), PluginBase(market[s.0].entries).Keys)
  {
  }

  /** A workflow candidate of a marketplace tree comes from the marketplace
      it names. */
  lemma WorkflowSourcesFromMember(market: map<string, Node>, names: set<string>, t: (string, string, string))
    ensures t in WorkflowSourcesFrom(market, names)
            <==> t.0 in names && t.0 in market && IsMarketplace(t.0, market[t.0])
                 && t in WorkflowSourcesAmong(t.0, PluginBase(market[t.0].entries), PluginBase(market[t.0].entries).Keys)
  {
  }

  /** One more marketplace entry adds the plugin candidates of its plugin
      base when it is a visible directory, and none otherwise. */
  lemma PluginSourcesFromAdd(market: map<string, Node>, names: set<string>, mp: string)
    requires mp in market && mp !in names
    ensures |PluginSourcesFrom(market, names + {mp})|
            == |PluginSourcesFrom(market, names)|
               + (if IsMarketplace(mp, market[mp])
                  then |PluginSourcesAmong(mp, PluginBase(market[mp].entries), PluginBase(market[mp].entries).Keys)|
                  else 0)
  {
    var a := PluginSourcesFrom(market, names);
    var x := if IsMarketplace(mp, market[mp])
             then PluginSourcesAmong(mp, PluginBase(market[mp].entries), PluginBase(market[mp].entries).Keys)
             else {};
    var b := PluginSourcesFrom(market, names + {mp});
    forall s ensures s in b <==> s in a + x {
      PluginSourcesFromMember(market, names + {mp}, s);
      PluginSourcesFromMember(market, names, s);
    }
    assert b == a + x;
    assert a * x == {};
  }

  /** One more marketplace entry adds the workflow candidates of its plugin
      base when it is a visible directory, and none otherwise. */
  lemma WorkflowSourcesFromAdd(market: map<string, Node>, names: set<string>, mp: string)
    requires mp in market && mp !in names
    ensures |WorkflowSourcesFrom(market, names + {mp})|
            == |WorkflowSourcesFrom(market, names)|
               + (if IsMarketplace(mp, market[mp])
                  then |WorkflowSourcesAmong(mp, PluginBase(market[mp].entries), PluginBase(market[mp].entries).Keys)|
                  else 0)
  {
    var a := WorkflowSourcesFrom(market, names);
    var x := if IsMarketplace(mp, market[mp])
             then WorkflowSourcesAmong(mp, PluginBase(market[mp].entries), PluginBase(market[mp].entries).Keys)
             else {};
    var b := WorkflowSourcesFrom(market, names + {mp});
    forall t ensures t in b <==> t in a + x {
      WorkflowSourcesFromMember(market, names + {mp}, t);
      WorkflowSourcesFromMember(market, names, t);
    }
    assert b == a + x;
    assert a * x == {};
  }

  /** A plugin link name is valid exactly when it names a classified
      directory of the plugin base of a visible marketplace. */
  lemma ValidPluginIdsExactly(market: map<string, Node>, id: string)
    ensures id in ValidPluginIds(market) <==>
      exists mp, p :: mp in market && IsMarketplace(mp, market[mp])
        && p in PluginBase(market[mp].entries) && IsPluginSource(p, PluginBase(market[mp].entries)[p])
        && id == PluginId(mp, p)
  {
    if id in ValidPluginIds(market) {
      var mp :| mp in market && IsMarketplace(mp, market[mp])
        && id in PluginIdsAmong(mp, PluginBase(market[mp].entries), PluginBase(market[mp].entries).Keys);
      var base := PluginBase(market[mp].entries);
      var p :| p in base && IsPluginSource(p, base[p]) && id == PluginId(mp, p);
    }
    if exists mp, p :: mp in market && IsMarketplace(mp, market[mp])
        && p in PluginBase(market[mp].entries) && IsPluginSource(p, PluginBase(market[mp].entries)[p])
        && id == PluginId(mp, p)
    {
      var mp, p :| mp in market && IsMarketplace(mp, market[mp])
        && p in PluginBase(market[mp].entries) && IsPluginSource(p, PluginBase(market[mp].entries)[p])
        && id == PluginId(mp, p);
      var base := PluginBase(market[mp].entries);
      assert id in PluginIdsAmong(mp, base, base.Keys);
    }
  }

  /** A workflow link name is valid exactly when it names a `*.md` entry
      of the `commands` directory of a classified directory of the plugin
      base of a visible marketplace. */
  lemma ValidWorkflowIdsExactly(market: map<string, Node>, id: string)
    ensures id in ValidWorkflowIds(market) <==>
      exists mp, p, f :: mp in market && IsMarketplace(mp, market[mp])
        && p in PluginBase(market[mp].entries) && IsPluginSource(p, PluginBase(market[mp].entries)[p])
        && f in CommandFiles(PluginBase(market[mp].entries)[p].entries)
        && id == WorkflowId(mp, p, f)
  {
    if id in ValidWorkflowIds(market) {
      var mp :| mp in market && IsMarketplace(mp, market[mp])
        && id in WorkflowIdsAmong(mp, PluginBase(market[mp].entries), PluginBase(market[mp].entries).Keys);
      var base := PluginBase(market[mp].entries);
      var p :| p in base && IsPluginSource(p, base[p]) && id in WorkflowIdsOf(mp, p, CommandFiles(base[p].entries));
      var f :| f in CommandFiles(base[p].entries) && id == WorkflowId(mp, p, f);
    }
    if exists mp, p, f :: mp in market && IsMarketplace(mp, market[mp])
        && p in PluginBase(market[mp].entries) && IsPluginSource(p, PluginBase(market[mp].entries)[p])
        && f in CommandFiles(PluginBase(market[mp].entries)[p].entries)
        && id == WorkflowId(mp, p, f)
    {
      var mp, p, f :| mp in market && IsMarketplace(mp, market[mp])
        && p in PluginBase(market[mp].entries) && IsPluginSource(p, PluginBase(market[mp].entries)[p])
        && f in CommandFiles(PluginBase(market[mp].entries)[p].entries)
        && id == WorkflowId(mp, p, f);
      var base := PluginBase(market[mp].entries);
      assert id in WorkflowIdsOf(mp, p, CommandFiles(base[p].entries));
      assert id in WorkflowIdsAmong(mp, base, base.Keys);
    }
  }

  /** Every valid workflow name carries the ownership prefix, ends in `.md`
      and comes from a command file of a plugin that is itself bridged. */
  lemma ValidWorkflowIdsShape(market: map<string, Node>, id: string)
    requires id in ValidWorkflowIds(market)
    ensures StartsWith(id, OwnerPrefix) && EndsWith(id, ".md")
    ensures exists mp, p, f :: id == WorkflowId(mp, p, f) && IsMarkdownName(f)
                              && PluginId(mp, p) in ValidPluginIds(market)
  {
    var mp :| mp in market && IsMarketplace(mp, market[mp])
      && id in WorkflowIdsAmong(mp, PluginBase(market[mp].entries), PluginBase(market[mp].entries).Keys);
    var base := PluginBase(market[mp].entries);
    var p :| p in base && IsPluginSource(p, base[p]) && id in WorkflowIdsOf(mp, p, CommandFiles(base[p].entries));
    var f :| f in CommandFiles(base[p].entries) && id == WorkflowId(mp, p, f);
    assert PluginId(mp, p) in PluginIdsAmong(mp, base, base.Keys);
    assert PluginId(mp, p) in ValidPluginIds(market);
    assert EndsWith(id, f);
    assert id[|id| - 3..] == f[|f| - 3..];
  }

  /** A hidden or non-directory marketplace entry contributes nothing:
      adding one leaves both valid sets as they were. */
  lemma IgnoredMarketplaceEntry(market: map<string, Node>, name: string, n: Node)
    requires name !in market
    requires !IsMarketplace(name, n)
    ensures ValidPluginIds(market[name := n]) == ValidPluginIds(market)
    ensures ValidWorkflowIds(market[name := n]) == ValidWorkflowIds(market)
  {
    var m := market[name := n];
    forall id | id in ValidPluginIds(m) ensures id in ValidPluginIds(market) {
      var mp :| mp in m && IsMarketplace(mp, m[mp])
        && id in PluginIdsAmong(mp, PluginBase(m[mp].entries), PluginBase(m[mp].entries).Keys);
      assert mp != name;
    }
    forall id | id in ValidWorkflowIds(m) ensures id in ValidWorkflowIds(market) {
      var mp :| mp in m && IsMarketplace(mp, m[mp])
        && id in WorkflowIdsAmong(mp, PluginBase(m[mp].entries), PluginBase(m[mp].entries).Keys);
      assert mp != name;
    }
    forall id | id in ValidPluginIds(market) ensures id in ValidPluginIds(m) {
      var mp :| mp in market && IsMarketplace(mp, market[mp])
        && id in PluginIdsAmong(mp, PluginBase(market[mp].entries), PluginBase(market[mp].entries).Keys);
      assert m[mp] == market[mp];
    }
    forall id | id in ValidWorkflowIds(market) ensures id in ValidWorkflowIds(m) {
      var mp :| mp in market && IsMarketplace(mp, market[mp])
        && id in WorkflowIdsAmong(mp, PluginBase(market[mp].entries), PluginBase(market[mp].entries).Keys);
      assert m[mp] == market[mp];
    }
  }

  /** One more command file adds its workflow name. */
  lemma WorkflowIdsOfAdd(mp: string, plugin: string, files: set<string>, f: string)
    ensures WorkflowIdsOf(mp, plugin, files + {f}) == WorkflowIdsOf(mp, plugin, files) + {WorkflowId(mp, plugin, f)}
  {
  }

  /** One more entry of the plugin base adds its plugin link name when it is
      a plugin, and nothing otherwise. */
  lemma PluginIdsAmongAdd(mp: string, base: map<string, Node>, names: set<string>, p: string)
    requires p in base
    ensures PluginIdsAmong(mp, base, names + {p}) ==
      PluginIdsAmong(mp, base, names) + (if IsPluginSource(p, base[p]) then {PluginId(mp, p)} else {})
  {
  }

  /** One more entry of the plugin base adds the workflow names of its
      command files when it is a plugin, and nothing otherwise. */
  lemma WorkflowIdsAmongAdd(mp: string, base: map<string, Node>, names: set<string>, p: string)
    requires p in base
    ensures WorkflowIdsAmong(mp, base, names + {p}) ==
      WorkflowIdsAmong(mp, base, names)
      + (if IsPluginSource(p, base[p]) then WorkflowIdsOf(mp, p, CommandFiles(base[p].entries)) else {})
  {
    var lhs := WorkflowIdsAmong(mp, base, names + {p});
    var rhs := WorkflowIdsAmong(mp, base, names)
      + (if IsPluginSource(p, base[p]) then WorkflowIdsOf(mp, p, CommandFiles(base[p].entries)) else {});
    forall id | id in lhs ensures id in rhs {
      var q :| q in names + {p} && q in base && IsPluginSource(q, base[q])
               && id in WorkflowIdsOf(mp, q, CommandFiles(base[q].entries));
      if q != p {
        assert id in WorkflowIdsAmong(mp, base, names);
      }
    }
  }

  /** One more marketplace entry adds the plugin link names of its plugins
      when it is a visible directory, and nothing otherwise. */
  lemma PluginIdsFromAdd(market: map<string, Node>, names: set<string>, mp: string)
    requires mp in market
    ensures PluginIdsFrom(market, names + {mp}) ==
      PluginIdsFrom(market, names)
      + (if IsMarketplace(mp, market[mp])
         then PluginIdsAmong(mp, PluginBase(market[mp].entries), PluginBase(market[mp].entries).Keys)
         else {})
  {
    var lhs := PluginIdsFrom(market, names + {mp});
    forall id | id in lhs
      ensures id in PluginIdsFrom(market, names) ||
              (IsMarketplace(mp, market[mp])
               && id in PluginIdsAmong(mp, PluginBase(market[mp].entries), PluginBase(market[mp].entries).Keys))
    {
      var m :| m in names + {mp} && m in market && IsMarketplace(m, market[m])
               && id in PluginIdsAmong(m, PluginBase(market[m].entries), PluginBase(market[m].entries).Keys);
      if m != mp {
        assert id in PluginIdsFrom(market, names);
      }
    }
  }

  /** One more marketplace entry adds the workflow names of its plugins
      when it is a visible directory, and nothing otherwise. */
  lemma WorkflowIdsFromAdd(market: map<string, Node>, names: set<string>, mp: string)
    requires mp in market
    ensures WorkflowIdsFrom(market, names + {mp}) ==
      WorkflowIdsFrom(market, names)
      + (if IsMarketplace(mp, market[mp])
         then WorkflowIdsAmong(mp, PluginBase(market[mp].entries), PluginBase(market[mp].entries).Keys)
         else {})
  {
    var lhs := WorkflowIdsFrom(market, names + {mp});
    forall id | id in lhs
      ensures id in WorkflowIdsFrom(market, names) ||
              (IsMarketplace(mp, market[mp])
               && id in WorkflowIdsAmong(mp, PluginBase(market[mp].entries), PluginBase(market[mp].entries).Keys))
    {
      var m :| m in names + {mp} && m in market && IsMarketplace(m, market[m])
               && id in WorkflowIdsAmong(m, PluginBase(market[m].entries), PluginBase(market[m].entries).Keys);
      if m != mp {
        assert id in WorkflowIdsFrom(market, names);
      }
    }
  }

  /** Once every root entry has been looked at, the names found are the
      valid names. */
  lemma ValidIdsFromAll(market: map<string, Node>, done: set<string>)
    requires done == market.Keys
    ensures PluginIdsFrom(market, done) == ValidPluginIds(market)
    ensures WorkflowIdsFrom(market, done) == ValidWorkflowIds(market)
  {
  }

  /** Every marketplace that holds a plugin has a name free of the
      separator and not ending in `_`: then no two plugins share a link
      name. */
  predicate SeparablePluginSources(market: map<string, Node>) {
    forall s :: s in PluginSources(market) ==> SafePart(s.0)
  }

  /** Likewise for the marketplace and plugin names behind every command
      file: then no two command files share a link name. */
  predicate SeparableWorkflowSources(market: map<string, Node>) {
    forall t :: t in WorkflowSources(market) ==> SafePart(t.0) && SafePart(t.1)
  }

  /** With separable names, there are as many valid plugin link names as
      plugin candidates. */
  lemma PluginIdsCount(market: map<string, Node>)
    requires SeparablePluginSources(market)
    ensures |ValidPluginIds(market)| == |PluginSources(market)|
  {
    var src, ids := PluginSources(market), ValidPluginIds(market);
    var f := (s: (string, string)) => PluginId(s.0, s.1);
    forall x, y | x in src && y in src && f(x) == f(y) ensures x == y {
      PluginIdInjective(x.0, x.1, y.0, y.1);
    }
    forall x | x in src ensures f(x) in ids {
      PluginSourcesFromMember(market, market.Keys, x);
      ValidPluginIdsExactly(market, f(x));
    }
    forall y | y in ids ensures exists x :: x in src && f(x) == y {
      ValidPluginIdsExactly(market, y);
      var mp, p :| mp in market && IsMarketplace(mp, market[mp])
        && p in PluginBase(market[mp].entries) && IsPluginSource(p, PluginBase(market[mp].entries)[p])
        && y == PluginId(mp, p);
      PluginSourcesFromMember(market, market.Keys, (mp, p));
      assert f((mp, p)) == y;
    }
    InjectiveImageCard(src, ids, f);
  }

  /** With separable names, there are as many valid workflow link names as
      command files found. */
  lemma WorkflowIdsCount(market: map<string, Node>)
    requires SeparableWorkflowSources(market)
    ensures |ValidWorkflowIds(market)| == |WorkflowSources(market)|
  {
    var src, ids := WorkflowSources(market), ValidWorkflowIds(market);
    var g := (t: (string, string, string)) => WorkflowId(t.0, t.1, t.2);
    forall x, y | x in src && y in src && g(x) == g(y) ensures x == y {
      WorkflowIdInjective(x.0, x.1, x.2, y.0, y.1, y.2);
    }
    forall x | x in src ensures g(x) in ids {
      WorkflowSourcesFromMember(market, market.Keys, x);
      ValidWorkflowIdsExactly(market, g(x));
    }
    forall y | y in ids ensures exists x :: x in src && g(x) == y {
      ValidWorkflowIdsExactly(market, y);
      var mp, p, f :| mp in market && IsMarketplace(mp, market[mp])
        && p in PluginBase(market[mp].entries) && IsPluginSource(p, PluginBase(market[mp].entries)[p])
        && f in CommandFiles(PluginBase(market[mp].entries)[p].entries)
        && y == WorkflowId(mp, p, f);
      WorkflowSourcesFromMember(market, market.Keys, (mp, p, f));
      assert g((mp, p, f)) == y;
    }
    InjectiveImageCard(src, ids, g);
  }
}
