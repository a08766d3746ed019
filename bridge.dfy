/** The `sync` command as the bridge runs it: one walk over the marketplace
    tree that records the valid names and creates the links that are
    missing, then one cleanup pass per destination directory. The two
    destination directories, the lists of valid names and the counters the
    command reports are the state it updates. */
module Bridge {
  import opened FileSystem
  import opened Classifier
  import opened Naming
  import opened Scanner
  import opened Links
  import opened Reconcile

  /** The two directories a sync writes to. */
  datatype Destination = PluginDest | WorkflowDest

  function FaultsOf(which: Destination, env: Env): Faults {
    if which.PluginDest? then env.pluginFaults else env.workflowFaults
  }

  /** How a sync ends: the marketplace does not exist and nothing is done;
      it exists but is not a directory, so listing it fails once the
      destinations are made; or the sync runs to the end. */
  datatype Outcome = NoMarketplace | MarketplaceUnreadable | Completed

  class Bridge {
    var pluginsDirExists: bool
    var workflowsDirExists: bool
    /** Entries of the plugin destination. */
    var plugins: Listing
    /** Entries of the global workflow destination. */
    var workflows: Listing
    /** Names recorded as valid by the current sync, in scan order. */
    var validPlugins: seq<string>
    var validWorkflows: seq<string>
    var pluginsLinked: nat
    var pluginsSkipped: nat
    var pluginsRemoved: nat
    var workflowsLinked: nat
    var workflowsSkipped: nat
    var workflowsRemoved: nat

    /** A destination directory that does not exist has no entries. */
    ghost predicate Valid()
      reads this
    {
      (!pluginsDirExists ==> plugins == map[]) && (!workflowsDirExists ==> workflows == map[])
    }

    /** A bridge over destinations that are absent (`None`) or hold the
        given entries. */
    constructor (pluginDir: Option<Listing>, workflowDir: Option<Listing>)
      ensures Valid()
      ensures pluginsDirExists == pluginDir.Some? && workflowsDirExists == workflowDir.Some?
      ensures plugins == (if pluginDir.Some? then pluginDir.value else map[])
      ensures workflows == (if workflowDir.Some? then workflowDir.value else map[])
      ensures validPlugins == [] && validWorkflows == []
      ensures pluginsLinked == pluginsSkipped == pluginsRemoved == 0
      ensures workflowsLinked == workflowsSkipped == workflowsRemoved == 0
    {
      pluginsDirExists := pluginDir.Some?;
      workflowsDirExists := workflowDir.Some?;
      plugins := if pluginDir.Some? then pluginDir.value else map[];
      workflows := if workflowDir.Some? then workflowDir.value else map[];
      validPlugins, validWorkflows := [], [];
      pluginsLinked, pluginsSkipped, pluginsRemoved := 0, 0, 0;
      workflowsLinked, workflowsSkipped, workflowsRemoved := 0, 0, 0;
    }

    /** The plugin side of the create pass so far. */
    function PluginPass(): Pass
      reads this`plugins, this`pluginsLinked, this`pluginsSkipped
    {
      Pass(plugins, pluginsLinked, pluginsSkipped)
    }

    /** The workflow side of the create pass so far. */
    function WorkflowPass(): Pass
      reads this`workflows, this`workflowsLinked, this`workflowsSkipped
    {
      Pass(workflows, workflowsLinked, workflowsSkipped)
    }

    function ListingOf(which: Destination): Listing
      reads this
    {
      if which.PluginDest? then plugins else workflows
    }

    /** `create_link`: a junction or symbolic link called `id` in the plugin
        destination, made unless the name is taken or the system refuses. */
    method CreateLink(id: string, env: Env) returns (ok: bool)
      modifies this`plugins
      ensures ok <==> CreateSucceeds(old(plugins), id, env.pluginFaults.createFails)
      ensures plugins == if ok then old(plugins)[id := DirLinkKind(env.isWindows)] else old(plugins)
    {
      ok := id !in plugins && id !in env.pluginFaults.createFails;
      if ok {
        plugins := plugins[id := DirLinkKind(env.isWindows)];
      }
    }

    /** `create_file_link`: a hard or symbolic link called `id` in the
        workflow destination, made unless the name is taken or the system
        refuses. */
    method CreateFileLink(id: string, env: Env) returns (ok: bool)
      modifies this`workflows
      ensures ok <==> CreateSucceeds(old(workflows), id, env.workflowFaults.createFails)
      ensures workflows == if ok then old(workflows)[id := FileLinkKind(env.isWindows)] else old(workflows)
    {
      ok := id !in workflows && id !in env.workflowFaults.createFails;
      if ok {
        workflows := workflows[id := FileLinkKind(env.isWindows)];
      }
    }

    /** `remove_link` on entry `name` of one destination: the call is chosen
        from the entry's kind, and the entry goes exactly when that call
        succeeds; the other destination is untouched. */
    method RemoveLink(which: Destination, name: string, env: Env) returns (ok: bool)
      modifies this`plugins, this`workflows
      ensures ok <==> RemoveSucceeds(old(ListingOf(which)), name, env.isWindows, FaultsOf(which, env).removeFails)
      ensures ListingOf(which) == if ok then old(ListingOf(which)) - {name} else old(ListingOf(which))
      ensures which.PluginDest? ==> workflows == old(workflows)
      ensures which.WorkflowDest? ==> plugins == old(plugins)
    {
      var d := ListingOf(which);
      if name !in d {
        // The entry is gone: the call raises and the failure is reported.
        return false;
      }
      var call := RemovalCall(d[name], env.isWindows);
      ok := name !in FaultsOf(which, env).removeFails && CallMaySucceed(call, d[name]);
      if ok {
        if which.PluginDest? {
          plugins := plugins - {name};
        } else {
          workflows := workflows - {name};
        }
      }
    }

    /** One plugin candidate: its name is recorded as valid, then it is
        skipped when the name is occupied and linked otherwise. */
    method LinkPlugin(id: string, env: Env)
      modifies this`plugins, this`validPlugins, this`pluginsLinked, this`pluginsSkipped
      ensures validPlugins == old(validPlugins) + [id]
      ensures PluginPass() == Step(old(PluginPass()), id, env.pluginFaults.createFails, DirLinkKind(env.isWindows))
    {
      validPlugins := validPlugins + [id];
      if Occupied(plugins, id) {
        pluginsSkipped := pluginsSkipped + 1;
      } else {
        var ok := CreateLink(id, env);
        if ok {
          pluginsLinked := pluginsLinked + 1;
        }
      }
    }

    /** One workflow candidate, likewise. */
    method LinkWorkflow(id: string, env: Env)
      modifies this`workflows, this`validWorkflows, this`workflowsLinked, this`workflowsSkipped
      ensures validWorkflows == old(validWorkflows) + [id]
      ensures WorkflowPass() == Step(old(WorkflowPass()), id, env.workflowFaults.createFails, FileLinkKind(env.isWindows))
    {
      validWorkflows := validWorkflows + [id];
      if Occupied(workflows, id) {
        workflowsSkipped := workflowsSkipped + 1;
      } else {
        var ok := CreateFileLink(id, env);
        if ok {
          workflowsLinked := workflowsLinked + 1;
        }
      }
    }

    /** The command files `files` of plugin `p` of marketplace `mp`, in any
        order: each is one workflow candidate. */
    method ScanCommandFiles(mp: string, p: string, files: set<string>, env: Env)
      modifies this`workflows, this`validWorkflows, this`workflowsLinked, this`workflowsSkipped
      ensures old(validWorkflows) <= validWorkflows
      ensures Elems(validWorkflows) == Elems(old(validWorkflows)) + WorkflowIdsOf(mp, p, files)
      ensures |validWorkflows| == |old(validWorkflows)| + |files|
      ensures WorkflowPass() == Run(old(WorkflowPass()), validWorkflows[|old(validWorkflows)|..],
                                    env.workflowFaults.createFails, FileLinkKind(env.isWindows))
    {
      ghost var w0, wp0 := validWorkflows, WorkflowPass();
      var todo := files;
      ghost var done: set<string> := {};
      assert validWorkflows[|w0|..] == [];
      while todo != {}
        invariant todo <= files && done == files - todo
        invariant w0 <= validWorkflows
        invariant Elems(validWorkflows) == Elems(w0) + WorkflowIdsOf(mp, p, done)
        invariant |validWorkflows| == |w0| + |done|
        invariant WorkflowPass() == Run(wp0, validWorkflows[|w0|..], env.workflowFaults.createFails, FileLinkKind(env.isWindows))
        decreases todo
      {
        var f :| f in todo;
        ghost var v := validWorkflows;
        LinkWorkflow(WorkflowId(mp, p, f), env);
        ExtendByOne(wp0, w0, v, WorkflowId(mp, p, f), env.workflowFaults.createFails, FileLinkKind(env.isWindows));
        WorkflowIdsOfAdd(mp, p, done, f);
        VisitOne(files, todo, done, f);
        todo := todo - {f};
        done := done + {f};
      }
      assert done == files;
    }

    /** A classified plugin `p` of marketplace `mp`, whose entries are
        `entries`: the plugin itself is one candidate, then each `*.md` file
        of its `commands` directory is one workflow candidate. */
    method ScanPlugin(mp: string, p: string, entries: map<string, Node>, env: Env)
      modifies this`plugins, this`validPlugins, this`pluginsLinked, this`pluginsSkipped
      modifies this`workflows, this`validWorkflows, this`workflowsLinked, this`workflowsSkipped
      ensures validPlugins == old(validPlugins) + [PluginId(mp, p)]
      ensures PluginPass() == Step(old(PluginPass()), PluginId(mp, p), env.pluginFaults.createFails, DirLinkKind(env.isWindows))
      ensures old(validWorkflows) <= validWorkflows
      ensures Elems(validWorkflows) == Elems(old(validWorkflows)) + WorkflowIdsOf(mp, p, CommandFiles(entries))
      ensures |validWorkflows| == |old(validWorkflows)| + |CommandFiles(entries)|
      ensures WorkflowPass() == Run(old(WorkflowPass()), validWorkflows[|old(validWorkflows)|..],
                                    env.workflowFaults.createFails, FileLinkKind(env.isWindows))
    {
      LinkPlugin(PluginId(mp, p), env);
      ScanCommandFiles(mp, p, CommandFiles(entries), env);
    }

    /** Entry `p` of the plugin base `base` of marketplace `mp`: scanned as a
        plugin when it is a directory passing the classifier, and skipped
        otherwise. */
    method ScanEntry(mp: string, base: map<string, Node>, p: string, env: Env)
      requires p in base
      modifies this`plugins, this`validPlugins, this`pluginsLinked, this`pluginsSkipped
      modifies this`workflows, this`validWorkflows, this`workflowsLinked, this`workflowsSkipped
      ensures old(validPlugins) <= validPlugins && old(validWorkflows) <= validWorkflows
      ensures Elems(validPlugins) == Elems(old(validPlugins))
                + (if IsPluginSource(p, base[p]) then {PluginId(mp, p)} else {})
      ensures Elems(validWorkflows) == Elems(old(validWorkflows))
                + (if IsPluginSource(p, base[p]) then WorkflowIdsOf(mp, p, CommandFiles(base[p].entries)) else {})
      ensures |validPlugins| == |old(validPlugins)| + (if IsPluginSource(p, base[p]) then 1 else 0)
      ensures |validWorkflows| == |old(validWorkflows)|
                + (if IsPluginSource(p, base[p]) then |CommandFiles(base[p].entries)| else 0)
      ensures PluginPass() == Run(old(PluginPass()), validPlugins[|old(validPlugins)|..],
                                  env.pluginFaults.createFails, DirLinkKind(env.isWindows))
      ensures WorkflowPass() == Run(old(WorkflowPass()), validWorkflows[|old(validWorkflows)|..],
                                    env.workflowFaults.createFails, FileLinkKind(env.isWindows))
    {
      ghost var v, pp := validPlugins, PluginPass();
      if base[p].Dir? && IsPluginDir(p, base[p].entries) {
        ScanPlugin(mp, p, base[p].entries, env);
        ExtendByOne(pp, v, v, PluginId(mp, p), env.pluginFaults.createFails, DirLinkKind(env.isWindows));
        assert v[|v|..] == [];
      } else {
        assert validPlugins[|v|..] == [] && validWorkflows[|old(validWorkflows)|..] == [];
      }
    }

    /** The marketplace `mp` whose entries are `mpEntries`: every entry of
        its plugin base, in any order, that is a directory passing the
        classifier is scanned as a plugin. */
    method ScanMarketplace(mp: string, mpEntries: map<string, Node>, env: Env)
      modifies this`plugins, this`validPlugins, this`pluginsLinked, this`pluginsSkipped
      modifies this`workflows, this`validWorkflows, this`workflowsLinked, this`workflowsSkipped
      ensures old(validPlugins) <= validPlugins && old(validWorkflows) <= validWorkflows
      ensures Elems(validPlugins) == Elems(old(validPlugins))
                + PluginIdsAmong(mp, PluginBase(mpEntries), PluginBase(mpEntries).Keys)
      ensures Elems(validWorkflows) == Elems(old(validWorkflows))
                + WorkflowIdsAmong(mp, PluginBase(mpEntries), PluginBase(mpEntries).Keys)
      ensures |validPlugins| == |old(validPlugins)| + |PluginSourcesAmong(mp, PluginBase(mpEntries), PluginBase(mpEntries).Keys)|
      ensures |validWorkflows| == |old(validWorkflows)| + |WorkflowSourcesAmong(mp, PluginBase(mpEntries), PluginBase(mpEntries).Keys)|
      ensures PluginPass() == Run(old(PluginPass()), validPlugins[|old(validPlugins)|..],
                                  env.pluginFaults.createFails, DirLinkKind(env.isWindows))
      ensures WorkflowPass() == Run(old(WorkflowPass()), validWorkflows[|old(validWorkflows)|..],
                                    env.workflowFaults.createFails, FileLinkKind(env.isWindows))
    {
      var base := PluginBase(mpEntries);
      ghost var v0, pp0 := validPlugins, PluginPass();
      ghost var w0, wp0 := validWorkflows, WorkflowPass();
      var todo := base.Keys;
      ghost var done: set<string> := {};
      assert validPlugins[|v0|..] == [] && validWorkflows[|w0|..] == [];
      while todo != {}
        invariant todo <= base.Keys && done == base.Keys - todo
        invariant v0 <= validPlugins && w0 <= validWorkflows
        invariant Elems(validPlugins) == Elems(v0) + PluginIdsAmong(mp, base, done)
        invariant Elems(validWorkflows) == Elems(w0) + WorkflowIdsAmong(mp, base, done)
        invariant |validPlugins| == |v0| + |PluginSourcesAmong(mp, base, done)|
        invariant |validWorkflows| == |w0| + |WorkflowSourcesAmong(mp, base, done)|
        invariant PluginPass() == Run(pp0, validPlugins[|v0|..], env.pluginFaults.createFails, DirLinkKind(env.isWindows))
        invariant WorkflowPass() == Run(wp0, validWorkflows[|w0|..], env.workflowFaults.createFails, FileLinkKind(env.isWindows))
        decreases todo
      {
        var p :| p in todo;
        PluginIdsAmongAdd(mp, base, done, p);
        WorkflowIdsAmongAdd(mp, base, done, p);
        PluginSourcesAmongAdd(mp, base, done, p);
        WorkflowSourcesAmongAdd(mp, base, done, p);
        ghost var v, w := validPlugins, validWorkflows;
        ScanEntry(mp, base, p, env);
        RunExtends(pp0, v0, v, validPlugins, env.pluginFaults.createFails, DirLinkKind(env.isWindows));
        RunExtends(wp0, w0, w, validWorkflows, env.workflowFaults.createFails, FileLinkKind(env.isWindows));
        UnionStep(Elems(v0), PluginIdsAmong(mp, base, done), PluginIdsAmong(mp, base, done + {p}),
                  if IsPluginSource(p, base[p]) then {PluginId(mp, p)} else {}, Elems(v), Elems(validPlugins));
        UnionStep(Elems(w0), WorkflowIdsAmong(mp, base, done), WorkflowIdsAmong(mp, base, done + {p}),
                  if IsPluginSource(p, base[p]) then WorkflowIdsOf(mp, p, CommandFiles(base[p].entries)) else {},
                  Elems(w), Elems(validWorkflows));
        VisitOne(base.Keys, todo, done, p);
        todo := todo - {p};
        done := done + {p};
      }
      assert done == base.Keys;
    }

    /** One entry of the plugin cleanup: when its name was not recorded as
        valid it is handed to `remove_link`, and a success is counted. */
    method CleanupPluginEntry(name: string, names: seq<string>, env: Env) returns (removed: bool)
      modifies this`plugins, this`workflows, this`pluginsRemoved
      ensures removed <==> Doomed(name, Elems(names), Everything)
                           && RemoveSucceeds(old(plugins), name, env.isWindows, env.pluginFaults.removeFails)
      ensures plugins == if removed then old(plugins) - {name} else old(plugins)
      ensures pluginsRemoved == old(pluginsRemoved) + (if removed then 1 else 0)
      ensures workflows == old(workflows)
    {
      removed := false;
      if name !in names {
        removed := RemoveLink(PluginDest, name, env);
        if removed {
          pluginsRemoved := pluginsRemoved + 1;
        }
      }
    }

    /** One entry of the workflow cleanup: when it carries the bridge's
        prefix and its name was not recorded as valid it is handed to
        `remove_link`, and a success is counted. */
    method CleanupWorkflowEntry(name: string, names: seq<string>, env: Env) returns (removed: bool)
      modifies this`plugins, this`workflows, this`workflowsRemoved
      ensures removed <==> Doomed(name, Elems(names), OwnedOnly)
                           && RemoveSucceeds(old(workflows), name, env.isWindows, env.workflowFaults.removeFails)
      ensures workflows == if removed then old(workflows) - {name} else old(workflows)
      ensures workflowsRemoved == old(workflowsRemoved) + (if removed then 1 else 0)
      ensures plugins == old(plugins)
    {
      removed := false;
      if StartsWith(name, OwnerPrefix) && name !in names {
        removed := RemoveLink(WorkflowDest, name, env);
        if removed {
          workflowsRemoved := workflowsRemoved + 1;
        }
      }
    }

    /** The cleanup of the plugin destination `d0` (scripts/claude-bridge.py,
        lines 231-237), whose recorded valid names form the set `valid`.
        The counter starts at zero; every entry of a listing taken before it
        starts, in any order, whose name was not recorded is handed to
        `remove_link`, and each success is counted. */
    method CleanupPlugins(ghost d0: Listing, ghost valid: set<string>, env: Env)
      requires plugins == d0 && Elems(validPlugins) == valid
      modifies this`plugins, this`workflows, this`pluginsRemoved
      ensures plugins == AfterCleanup(d0, valid, Everything, env.isWindows, env.pluginFaults.removeFails)
      ensures pluginsRemoved == |Removals(d0, d0.Keys, valid, Everything, env.isWindows, env.pluginFaults.removeFails)|
      ensures workflows == old(workflows) && workflowsRemoved == old(workflowsRemoved)
    {
      pluginsRemoved := 0;
      var names := validPlugins;
      ghost var fails := env.pluginFaults.removeFails;
      var todo := plugins.Keys;
      ghost var done: set<string> := {};
      while todo != {}
        invariant todo <= d0.Keys && done == d0.Keys - todo
        invariant plugins == d0 - Removals(d0, done, valid, Everything, env.isWindows, fails)
        invariant pluginsRemoved == |Removals(d0, done, valid, Everything, env.isWindows, fails)|
        invariant workflows == old(workflows)
        decreases todo
      {
        var name :| name in todo;
        var removed := CleanupPluginEntry(name, names, env);
        CleanupStep(d0, done, name, valid, Everything, env.isWindows, fails, removed);
        VisitOne(d0.Keys, todo, done, name);
        todo := todo - {name};
        done := done + {name};
      }
    }

    /** The cleanup of the shared workflow destination `d0`
        (scripts/claude-bridge.py, lines 239-245), likewise, except that
        only the entries carrying the bridge's own prefix are looked at. */
    method CleanupWorkflows(ghost d0: Listing, ghost valid: set<string>, env: Env)
      requires workflows == d0 && Elems(validWorkflows) == valid
      modifies this`plugins, this`workflows, this`workflowsRemoved
      ensures workflows == AfterCleanup(d0, valid, OwnedOnly, env.isWindows, env.workflowFaults.removeFails)
      ensures workflowsRemoved == |Removals(d0, d0.Keys, valid, OwnedOnly, env.isWindows, env.workflowFaults.removeFails)|
      ensures plugins == old(plugins) && pluginsRemoved == old(pluginsRemoved)
    {
      workflowsRemoved := 0;
      var names := validWorkflows;
      ghost var fails := env.workflowFaults.removeFails;
      var todo := workflows.Keys;
      ghost var done: set<string> := {};
      while todo != {}
        invariant todo <= d0.Keys && done == d0.Keys - todo
        invariant workflows == d0 - Removals(d0, done, valid, OwnedOnly, env.isWindows, fails)
        invariant workflowsRemoved == |Removals(d0, done, valid, OwnedOnly, env.isWindows, fails)|
        invariant plugins == old(plugins)
        decreases todo
      {
        var name :| name in todo;
        var removed := CleanupWorkflowEntry(name, names, env);
        CleanupStep(d0, done, name, valid, OwnedOnly, env.isWindows, fails, removed);
        VisitOne(d0.Keys, todo, done, name);
        todo := todo - {name};
        done := done + {name};
      }
    }

    /** Both cleanups, the plugin destination's first, over the listings
        `p0` and `w0` the scan left; they touch neither the recorded names
        nor the scan's counters. */
    method CleanupBoth(ghost p0: Listing, ghost vp: set<string>, ghost w0: Listing, ghost vw: set<string>, env: Env)
      requires plugins == p0 && Elems(validPlugins) == vp
      requires workflows == w0 && Elems(validWorkflows) == vw
      modifies this`plugins, this`workflows, this`pluginsRemoved, this`workflowsRemoved
      ensures plugins == AfterCleanup(p0, vp, Everything, env.isWindows, env.pluginFaults.removeFails)
      ensures pluginsRemoved == |Removals(p0, p0.Keys, vp, Everything, env.isWindows, env.pluginFaults.removeFails)|
      ensures workflows == AfterCleanup(w0, vw, OwnedOnly, env.isWindows, env.workflowFaults.removeFails)
      ensures workflowsRemoved == |Removals(w0, w0.Keys, vw, OwnedOnly, env.isWindows, env.workflowFaults.removeFails)|
      ensures pluginsDirExists == old(pluginsDirExists) && workflowsDirExists == old(workflowsDirExists)
      ensures validPlugins == old(validPlugins) && validWorkflows == old(validWorkflows)
      ensures pluginsLinked == old(pluginsLinked) && pluginsSkipped == old(pluginsSkipped)
      ensures workflowsLinked == old(workflowsLinked) && workflowsSkipped == old(workflowsSkipped)
    {
      CleanupPlugins(p0, vp, env);
      CleanupWorkflows(w0, vw, env);
    }

    /** Root entry `mp` of the marketplace tree `market`: scanned as a
        marketplace when it is a directory whose name does not start with
        a dot, and skipped otherwise. */
    method WalkEntry(market: map<string, Node>, mp: string, env: Env)
      requires mp in market
      modifies this`plugins, this`validPlugins, this`pluginsLinked, this`pluginsSkipped
      modifies this`workflows, this`validWorkflows, this`workflowsLinked, this`workflowsSkipped
      ensures old(validPlugins) <= validPlugins && old(validWorkflows) <= validWorkflows
      ensures Elems(validPlugins) == Elems(old(validPlugins))
                + (if IsMarketplace(mp, market[mp])
                   then PluginIdsAmong(mp, PluginBase(market[mp].entries), PluginBase(market[mp].entries).Keys)
                   else {})
      ensures Elems(validWorkflows) == Elems(old(validWorkflows))
                + (if IsMarketplace(mp, market[mp])
                   then WorkflowIdsAmong(mp, PluginBase(market[mp].entries), PluginBase(market[mp].entries).Keys)
                   else {})
      ensures |validPlugins| == |old(validPlugins)|
                + (if IsMarketplace(mp, market[mp])
                   then |PluginSourcesAmong(mp, PluginBase(market[mp].entries), PluginBase(market[mp].entries).Keys)|
                   else 0)
      ensures |validWorkflows| == |old(validWorkflows)|
                + (if IsMarketplace(mp, market[mp])
                   then |WorkflowSourcesAmong(mp, PluginBase(market[mp].entries), PluginBase(market[mp].entries).Keys)|
                   else 0)
      ensures PluginPass() == Run(old(PluginPass()), validPlugins[|old(validPlugins)|..],
                                  env.pluginFaults.createFails, DirLinkKind(env.isWindows))
      ensures WorkflowPass() == Run(old(WorkflowPass()), validWorkflows[|old(validWorkflows)|..],
                                    env.workflowFaults.createFails, FileLinkKind(env.isWindows))
    {
      var n := market[mp];
      if n.Dir? && !StartsWith(mp, ".") {
        ScanMarketplace(mp, n.entries, env);
      } else {
        assert validPlugins[|validPlugins|..] == [] && validWorkflows[|validWorkflows|..] == [];
      }
    }

    /** The walk's progress after visiting the root entries `done`: the
        recorded names are the valid names of those marketplaces, one per
        candidate, and each destination is what the create pass over them
        leaves, from `p0` and `w0`. */
    ghost predicate WalkedOver(market: map<string, Node>, done: set<string>, p0: Listing, w0: Listing, env: Env)
      reads this`plugins, this`validPlugins, this`pluginsLinked, this`pluginsSkipped
      reads this`workflows, this`validWorkflows, this`workflowsLinked, this`workflowsSkipped
    {
      && Elems(validPlugins) == PluginIdsFrom(market, done)
      && Elems(validWorkflows) == WorkflowIdsFrom(market, done)
      && |validPlugins| == |PluginSourcesFrom(market, done)|
      && |validWorkflows| == |WorkflowSourcesFrom(market, done)|
      && PluginPass() == Run(Pass(p0, 0, 0), validPlugins, env.pluginFaults.createFails, DirLinkKind(env.isWindows))
      && WorkflowPass() == Run(Pass(w0, 0, 0), validWorkflows, env.workflowFaults.createFails, FileLinkKind(env.isWindows))
    }

    /** One root entry of the walk, visited after the entries `done`. */
    method WalkStep(market: map<string, Node>, mp: string, ghost done: set<string>, ghost p0: Listing, ghost w0: Listing, env: Env)
      requires mp in market && mp !in done
      requires WalkedOver(market, done, p0, w0, env)
      modifies this`plugins, this`validPlugins, this`pluginsLinked, this`pluginsSkipped
      modifies this`workflows, this`validWorkflows, this`workflowsLinked, this`workflowsSkipped
      ensures WalkedOver(market, done + {mp}, p0, w0, env)
    {
      ghost var pf, pk := env.pluginFaults.createFails, DirLinkKind(env.isWindows);
      ghost var wf, wk := env.workflowFaults.createFails, FileLinkKind(env.isWindows);
      PluginIdsFromAdd(market, done, mp);
      WorkflowIdsFromAdd(market, done, mp);
      PluginSourcesFromAdd(market, done, mp);
      WorkflowSourcesFromAdd(market, done, mp);
      ghost var v, w := validPlugins, validWorkflows;
      WalkEntry(market, mp, env);
      RunExtends(Pass(p0, 0, 0), [], v, validPlugins, pf, pk);
      RunExtends(Pass(w0, 0, 0), [], w, validWorkflows, wf, wk);
      GrowStep(PluginIdsFrom(market, done), PluginIdsFrom(market, done + {mp}),
               if IsMarketplace(mp, market[mp])
               then PluginIdsAmong(mp, PluginBase(market[mp].entries), PluginBase(market[mp].entries).Keys)
               else {},
               Elems(v), Elems(validPlugins));
      GrowStep(WorkflowIdsFrom(market, done), WorkflowIdsFrom(market, done + {mp}),
               if IsMarketplace(mp, market[mp])
               then WorkflowIdsAmong(mp, PluginBase(market[mp].entries), PluginBase(market[mp].entries).Keys)
               else {},
               Elems(w), Elems(validWorkflows));
    }

    /** The walk over the marketplace whose root entries are `market`:
        the lists of valid names and the counters start empty, and every
        root entry, in any order, that is a visible directory is scanned as
        a marketplace. The names recorded are exactly the valid names, one
        per candidate, and each destination and its counters are what the
        create pass over the recorded names, in the order recorded, leaves. */
    method Walk(market: map<string, Node>, env: Env)
      modifies this`plugins, this`validPlugins, this`pluginsLinked, this`pluginsSkipped
      modifies this`workflows, this`validWorkflows, this`workflowsLinked, this`workflowsSkipped
      ensures Elems(validPlugins) == ValidPluginIds(market)
      ensures Elems(validWorkflows) == ValidWorkflowIds(market)
      ensures |validPlugins| == |PluginSources(market)| && |validWorkflows| == |WorkflowSources(market)|
      ensures PluginPass() == Run(Pass(old(plugins), 0, 0), validPlugins,
                                  env.pluginFaults.createFails, DirLinkKind(env.isWindows))
      ensures WorkflowPass() == Run(Pass(old(workflows), 0, 0), validWorkflows,
                                    env.workflowFaults.createFails, FileLinkKind(env.isWindows))
    {
      validPlugins, validWorkflows := [], [];
      pluginsLinked, pluginsSkipped, workflowsLinked, workflowsSkipped := 0, 0, 0, 0;
      ghost var p0, w0 := plugins, workflows;
      var todo := market.Keys;
      ghost var done: set<string> := {};
      NothingFromNone(market);
      while todo != {}
        invariant todo <= market.Keys && done == market.Keys - todo
        invariant WalkedOver(market, done, p0, w0, env)
        decreases todo
      {
        var mp :| mp in todo;
        WalkStep(market, mp, done, p0, w0, env);
        VisitOne(market.Keys, todo, done, mp);
        todo := todo - {mp};
        done := done + {mp};
      }
      assert done == market.Keys;
      ValidIdsFromAll(market, done);
    }

    /** The scan as a whole, in terms of the valid names: each destination
        gains a link at every valid name that was free and whose create the
        system allows, one link is counted per such name, and every
        recorded candidate is counted as linked, already present or neither. */
    method Scan(market: map<string, Node>, env: Env)
      modifies this`plugins, this`validPlugins, this`pluginsLinked, this`pluginsSkipped
      modifies this`workflows, this`validWorkflows, this`workflowsLinked, this`workflowsSkipped
      ensures Elems(validPlugins) == ValidPluginIds(market)
      ensures Elems(validWorkflows) == ValidWorkflowIds(market)
      ensures |validPlugins| == |PluginSources(market)| && |validWorkflows| == |WorkflowSources(market)|
      ensures plugins == Created(old(plugins), ValidPluginIds(market), env.pluginFaults.createFails, DirLinkKind(env.isWindows))
      ensures workflows == Created(old(workflows), ValidWorkflowIds(market), env.workflowFaults.createFails, FileLinkKind(env.isWindows))
      ensures pluginsLinked == |ValidPluginIds(market) - old(plugins).Keys - env.pluginFaults.createFails|
      ensures workflowsLinked == |ValidWorkflowIds(market) - old(workflows).Keys - env.workflowFaults.createFails|
      ensures Accounted(pluginsLinked, pluginsSkipped, validPlugins, old(plugins), env.pluginFaults.createFails)
      ensures Accounted(workflowsLinked, workflowsSkipped, validWorkflows, old(workflows), env.workflowFaults.createFails)
      ensures SeparablePluginSources(market) ==> pluginsSkipped == |ValidPluginIds(market) * Taken(old(plugins))|
      ensures SeparableWorkflowSources(market) ==> workflowsSkipped == |ValidWorkflowIds(market) * Taken(old(workflows))|
      ensures pluginsDirExists == old(pluginsDirExists) && workflowsDirExists == old(workflowsDirExists)
    {
      Walk(market, env);
      assert pluginsDirExists == old(pluginsDirExists) && workflowsDirExists == old(workflowsDirExists);
      RunOver(old(plugins), validPlugins, ValidPluginIds(market), Pass(plugins, pluginsLinked, pluginsSkipped), env.pluginFaults.createFails, DirLinkKind(env.isWindows));
      RunOver(old(workflows), validWorkflows, ValidWorkflowIds(market), Pass(workflows, workflowsLinked, workflowsSkipped), env.workflowFaults.createFails, FileLinkKind(env.isWindows));
      if SeparablePluginSources(market) {
        PluginIdsCount(market);
        RunOverDistinct(old(plugins), validPlugins, ValidPluginIds(market), Pass(plugins, pluginsLinked, pluginsSkipped), env.pluginFaults.createFails, DirLinkKind(env.isWindows));
      }
      if SeparableWorkflowSources(market) {
        WorkflowIdsCount(market);
        RunOverDistinct(old(workflows), validWorkflows, ValidWorkflowIds(market), Pass(workflows, workflowsLinked, workflowsSkipped), env.workflowFaults.createFails, FileLinkKind(env.isWindows));
      }
    }

    /** The part of `sync` after the destinations are made, over the
        marketplace whose root entries are `market`: the scan, then the
        cleanup of each destination. Whatever order the directories are
        listed in and whatever the system refuses, the valid names are
        exactly those the scan defines; each destination ends up as the
        create pass and then the cleanup leave it; every candidate is
        counted as linked, already present or neither (its create was
        attempted and failed); one link is counted per name newly made and
        one removal per entry removed. */
    method SyncMarketplace(market: map<string, Node>, env: Env)
      modifies this`plugins, this`validPlugins, this`pluginsLinked, this`pluginsSkipped, this`pluginsRemoved
      modifies this`workflows, this`validWorkflows, this`workflowsLinked, this`workflowsSkipped, this`workflowsRemoved
      ensures Elems(validPlugins) == ValidPluginIds(market)
      ensures Elems(validWorkflows) == ValidWorkflowIds(market)
      ensures |validPlugins| == |PluginSources(market)| && |validWorkflows| == |WorkflowSources(market)|
      ensures plugins == SyncedPlugins(old(plugins), market, env)
      ensures workflows == SyncedWorkflows(old(workflows), market, env)
      ensures pluginsLinked == |ValidPluginIds(market) - old(plugins).Keys - env.pluginFaults.createFails|
      ensures workflowsLinked == |ValidWorkflowIds(market) - old(workflows).Keys - env.workflowFaults.createFails|
      ensures Accounted(pluginsLinked, pluginsSkipped, validPlugins, old(plugins), env.pluginFaults.createFails)
      ensures Accounted(workflowsLinked, workflowsSkipped, validWorkflows, old(workflows), env.workflowFaults.createFails)
      ensures SeparablePluginSources(market) ==> pluginsSkipped == |ValidPluginIds(market) * Taken(old(plugins))|
      ensures SeparableWorkflowSources(market) ==> workflowsSkipped == |ValidWorkflowIds(market) * Taken(old(workflows))|
      ensures pluginsRemoved == |SyncRemovals(old(plugins), ValidPluginIds(market), Everything,
                                              env.isWindows, env.pluginFaults, DirLinkKind(env.isWindows))|
      ensures workflowsRemoved == |SyncRemovals(old(workflows), ValidWorkflowIds(market), OwnedOnly,
                                                env.isWindows, env.workflowFaults, FileLinkKind(env.isWindows))|
      ensures pluginsDirExists == old(pluginsDirExists) && workflowsDirExists == old(workflowsDirExists)
    {
      Scan(market, env);
      CleanupBoth(Created(old(plugins), ValidPluginIds(market), env.pluginFaults.createFails, DirLinkKind(env.isWindows)),
                  ValidPluginIds(market),
                  Created(old(workflows), ValidWorkflowIds(market), env.workflowFaults.createFails, FileLinkKind(env.isWindows)),
                  ValidWorkflowIds(market), env);
    }

    /** `sync`. A missing marketplace (a dangling link counts as missing)
        changes nothing. Otherwise both destinations are made; a marketplace
        that is not a directory cannot be listed and the run stops there,
        with the destinations' entries unchanged; otherwise the run goes
        on as `SyncMarketplace` says. */
    method Sync(market: Node, env: Env) returns (outcome: Outcome)
      requires Valid()
      modifies this
      ensures Valid()
      ensures outcome.NoMarketplace? <==> market.Broken?
      ensures outcome.MarketplaceUnreadable? <==> market.File?
      ensures outcome.NoMarketplace? ==> unchanged(this)
      ensures !outcome.NoMarketplace? ==> pluginsDirExists && workflowsDirExists
      ensures outcome.MarketplaceUnreadable? ==> plugins == old(plugins) && workflows == old(workflows)
      ensures outcome.Completed? ==>
        && Elems(validPlugins) == ValidPluginIds(market.entries)
        && Elems(validWorkflows) == ValidWorkflowIds(market.entries)
        && |validPlugins| == |PluginSources(market.entries)| && |validWorkflows| == |WorkflowSources(market.entries)|
        && plugins == SyncedPlugins(old(plugins), market.entries, env)
        && workflows == SyncedWorkflows(old(workflows), market.entries, env)
        && pluginsLinked == |ValidPluginIds(market.entries) - old(plugins).Keys - env.pluginFaults.createFails|
        && workflowsLinked == |ValidWorkflowIds(market.entries) - old(workflows).Keys - env.workflowFaults.createFails|
        && Accounted(pluginsLinked, pluginsSkipped, validPlugins, old(plugins), env.pluginFaults.createFails)
        && Accounted(workflowsLinked, workflowsSkipped, validWorkflows, old(workflows), env.workflowFaults.createFails)
        && (SeparablePluginSources(market.entries) ==> pluginsSkipped == |ValidPluginIds(market.entries) * Taken(old(plugins))|)
        && (SeparableWorkflowSources(market.entries) ==> workflowsSkipped == |ValidWorkflowIds(market.entries) * Taken(old(workflows))|)
        && pluginsRemoved == |SyncRemovals(old(plugins), ValidPluginIds(market.entries), Everything,
                                           env.isWindows, env.pluginFaults, DirLinkKind(env.isWindows))|
        && workflowsRemoved == |SyncRemovals(old(workflows), ValidWorkflowIds(market.entries), OwnedOnly,
                                             env.isWindows, env.workflowFaults, FileLinkKind(env.isWindows))|
    {
      if !NodeExists(market) {
        return NoMarketplace;
      }
      ghost var p0, w0 := plugins, workflows;
      pluginsDirExists := true;
      workflowsDirExists := true;
      assert plugins == p0 && workflows == w0;
      if !market.Dir? {
        return MarketplaceUnreadable;
      }
      SyncMarketplace(market.entries, env);
      return Completed;
    }
  }
}
