# claude-bridge sync engine, modelled in Dafny

`scripts/claude-bridge.py` mirrors the plugins of one tool's marketplace
into a second tool's directories. Its `sync` command does the following:

- It walks the marketplace tree.
- It classifies the directories that look like plugins.
- It gives each plugin a link name of the form `mp__plugin` in the
  bridged-plugins directory.
- It gives each `*.md` file in a plugin's `commands` directory a link name
  of the form `cb__mp__plugin__file` in the shared global-workflows
  directory.
- It creates the links that are missing.
- It removes the links whose source has gone. In the shared workflow
  directory it only touches entries carrying the `cb__` prefix.

Two more pieces belong to the engine:

- The `info` and `run` commands resolve a plugin name typed by the user,
  possibly only part of one, against the bridged-plugins directory.
- Three link primitives never raise; each returns a boolean.

The model is split into these modules:

| module | file | what it holds |
|---|---|---|
| `FileSystem` | `filesystem.dfy` | The abstract filesystem. The marketplace side is a tree of `Node`s, seen after following links; a dangling link is `Broken`. A destination directory is a `Listing`, a map from entry name to `EntryKind`. `EntryKind` tells symbolic links, Windows junctions, dangling ones of each, files, and empty and non-empty real directories apart, so Python's `exists()`, `is_symlink()`, `is_dir()` and `is_file()` can each be written out. |
| `Classifier` | `classifier.dfy` | The indicator and exclusion constants, and `is_plugin_dir` as a function. |
| `Naming` | `naming.dfy` | The two link-name formats, their parsing back into parts, round trips and injectivity. |
| `Scanner` | `scanner.dfy` | The set of valid plugin and workflow names that a walk of a marketplace tree must record, and the candidates (plugin directories and command files) behind them. |
| `Links` | `links.dfy` | When `create_link`, `create_file_link` and `remove_link` succeed. |
| `Reconcile` | `reconcile.dfy` | One destination directory as functions. The create pass is a fold over the candidates, with a closed form. The cleanup is the set of removals. Together they give convergence, idempotence and cleanup scoping. |
| `Bridge` | `bridge.dfy` | The `sync` command as a class. Its fields are both destinations, the lists of valid names and the six counters, and its methods hold the loops of `cmd_sync`. Each method is proved against the `Reconcile` and `Scanner` functions. |
| `Resolver` | `resolver.dfy` | `resolve_plugin` as a function, with its outcomes: found, not found, ambiguous, and the error raised when the directory is missing. |

The operating system's verdict on a link call is a parameter: `Env` holds
the platform and, for each destination, the set of names whose create and
the set whose removal fail. This covers permissions, a full disk and a
failing `mklink`.

The source sorts the marketplace, plugin and cleanup listings, and globs
command files in no particular order. The model picks every next entry
nondeterministically, and each result holds for every order of every
listing.

Facts about the code that shape the model:

- Command files are enumerated by an unsorted glob (line 219).
- Nothing checks at scan time that a marketplace or plugin name is free of
  the `__` separator. When names are not separable, two candidates can get
  the same link name, and the recorded lists then hold repeats. The summary
  counts candidates, not names: `len(valid_plugin_names)` is the number of
  classified plugin directories (`Scanner.PluginSources`), and
  `len(valid_workflow_names)` is the number of command files found
  (`Scanner.WorkflowSources`). For separable names, `skipped` is the number of
  valid names already present.
- `resolve_plugin` lists the bridged-plugins directory without checking
  that it exists (line 142). Listing a directory that does not exist raises
  an error that nothing catches (`Resolver.ResolveIn`, outcome
  `DirectoryMissing`).
- An error while listing an entry of the marketplace is not skipped.
- Cleanup of the plugin destination hands every entry that is not a valid
  name to `remove_link`. On POSIX that unlinks regular files and removes
  empty real directories, not only links. It never deletes a directory with
  contents (`Links.RemoveSucceedsExactly`, `Reconcile.SyncedIsSafe`).
- Convergence and idempotence hold only for destinations with two
  properties: no stale entry is a directory with contents, and no valid
  name is held by a dangling junction. The existence test does not see
  such a junction, the create is refused, and the cleanup keeps it, on
  every run (`Reconcile.DanglingJunctionPersists`).
- Injectivity of the names needs more than separator-free parts. A
  marketplace name ending in `_` collides with a plugin name starting with
  `_` (`Naming.SeparatorFreePartsCanCollide`). The injectivity lemmas
  require the leading parts to hold no `__` and not to end in `_`.

## Model

| member | source | states |
|---|---|---|
| Classifier.AnyIndicator | scripts/claude-bridge.py:82 | `any(...)` over the indicators is true exactly when one of them names an existing entry |
| Classifier.IsPluginDir | scripts/claude-bridge.py:78-82 | a directory is a plugin exactly when its name neither starts with `.` nor is excluded and one of the six indicators exists inside it; a dangling indicator does not count |
| Classifier.ExcludedNeverPlugin | scripts/claude-bridge.py:79-80 | a hidden or excluded name is never a plugin, whatever the directory holds |
| Classifier.IsPluginDirMonotone | scripts/claude-bridge.py:82 | adding entries to a directory never turns a plugin into a non-plugin |
| Classifier.OnlyIndicatorsMatter | scripts/claude-bridge.py:38-45 | two directories that agree on the six indicator entries are classified alike |
| Classifier.ClassifierExamples | scripts/claude-bridge.py:38-82 | `plugin.json` alone qualifies; `.git` alone does not; `tests` and hidden names never do; a dangling `README.md` does not |
| Naming.WorkflowId | scripts/claude-bridge.py:220 | a workflow name starts with the `cb__` ownership prefix and ends with the command file's name |
| Naming.SepIndexOfJoin | scripts/claude-bridge.py:205 | in `a + "__" + b` with `a` free of `__` and not ending in `_`, the first separator is the one inserted |
| Naming.ParsePluginIdRoundTrip | scripts/claude-bridge.py:205 | a plugin link name splits back into its marketplace and plugin names |
| Naming.ParseWorkflowIdRoundTrip | scripts/claude-bridge.py:220 | a workflow link name splits back into its marketplace, plugin and file names |
| Naming.PluginIdInjective | scripts/claude-bridge.py:205 | distinct (marketplace, plugin) pairs get distinct link names when marketplace names are safe parts |
| Naming.WorkflowIdInjective | scripts/claude-bridge.py:220 | distinct (marketplace, plugin, file) triples get distinct workflow names when marketplace and plugin names are safe parts |
| Naming.SeparatorFreePartsCanCollide | scripts/claude-bridge.py:205 | separator-free parts alone do not make names unique: `a_` + `b` and `a` + `_b` give the same name |
| Scanner.ValidPluginIdsExactly | scripts/claude-bridge.py:188-207 | a name is a valid plugin name exactly when it is `mp__p` for a visible marketplace directory `mp` and a classified directory `p` of its plugin base |
| Scanner.ValidWorkflowIdsExactly | scripts/claude-bridge.py:188-222 | a name is a valid workflow name exactly when it is `cb__mp__p__f` for a visible marketplace directory `mp`, a classified directory `p` of its plugin base and an `*.md` entry `f` of `p`'s `commands` directory |
| Scanner.ValidWorkflowIdsShape | scripts/claude-bridge.py:205-222 | every valid workflow name has the `cb__` prefix, ends in `.md`, and the plugin it comes from has its own valid plugin name |
| Scanner.IgnoredMarketplaceEntry | scripts/claude-bridge.py:188-190 | a hidden or non-directory marketplace entry adds no valid name |
| Scanner.PluginIdsAmongAdd | scripts/claude-bridge.py:199-207 | one more plugin-base entry adds its link name exactly when it is a directory that passes the classifier |
| Scanner.WorkflowIdsAmongAdd | scripts/claude-bridge.py:216-222 | one more plugin-base entry adds the workflow names of its command files exactly when it is bridged |
| Scanner.PluginIdsFromAdd | scripts/claude-bridge.py:188-197 | one more marketplace entry adds the plugin names of its plugin base exactly when it is a visible directory |
| Scanner.WorkflowIdsFromAdd | scripts/claude-bridge.py:188-197 | one more marketplace entry adds the workflow names of its plugins exactly when it is a visible directory |
| Scanner.WorkflowSourcesOfCard | scripts/claude-bridge.py:216-222 | a plugin contributes one workflow candidate per command file |
| Scanner.PluginSourcesAmongAdd | scripts/claude-bridge.py:199-205 | one more plugin-base entry adds one plugin candidate if it passes the classifier, and none otherwise |
| Scanner.WorkflowSourcesAmongAdd | scripts/claude-bridge.py:199-222 | one more plugin-base entry adds one workflow candidate per command file if it passes the classifier, and none otherwise |
| Scanner.PluginSourcesFromAdd | scripts/claude-bridge.py:188-205 | one more marketplace entry adds the plugin candidates of its plugin base if it is a visible directory, and none otherwise |
| Scanner.WorkflowSourcesFromAdd | scripts/claude-bridge.py:188-222 | one more marketplace entry adds the workflow candidates of its plugins if it is a visible directory, and none otherwise |
| Scanner.PluginIdsCount | scripts/claude-bridge.py:205 | when every marketplace name is separable, there are exactly as many valid plugin names as plugin candidates |
| Scanner.WorkflowIdsCount | scripts/claude-bridge.py:220 | when every marketplace and plugin name is separable, there are exactly as many valid workflow names as command files |
| Links.DirLinkKind | scripts/claude-bridge.py:85-98 | `create_link` leaves an entry that exists and is a directory but not a real one: a junction on Windows, a symbolic link elsewhere |
| Links.FileLinkKind | scripts/claude-bridge.py:101-114 | `create_file_link` leaves an existing file entry: a hard link on Windows, a symbolic link elsewhere |
| Links.RemoveSucceedsExactly | scripts/claude-bridge.py:117-133 | a real directory only ever reaches `rmdir`, so removal succeeds exactly when the entry is there, the system allows it, and it is not a directory with contents |
| Reconcile.Created | scripts/claude-bridge.py:207-214 | the create pass adds exactly the valid names not refused by the system; existing entries stay |
| Reconcile.StepKeepsCreated | scripts/claude-bridge.py:209-214 | one candidate keeps the pass equal to the closed form, and is counted as linked, skipped or blocked, exactly once |
| Reconcile.RunFromScratch | scripts/claude-bridge.py:207-229 | for every order of the candidates, the create pass ends in the closed form and counts one link per new name |
| Reconcile.RunOver | scripts/claude-bridge.py:188-229 | a pass over candidates with name set `valid` leaves `Created(d, valid)`; `linked` is the number of free, unrefused valid names; `linked + skipped + blocked` is the number of candidates |
| Reconcile.StepOnNew | scripts/claude-bridge.py:209-210 | a candidate not seen before is skipped exactly when the destination had it present before the pass |
| Reconcile.RunDistinct | scripts/claude-bridge.py:207-229 | over candidates without repeats, `skipped` is the number of candidates present beforehand and the blocked count is the number of blocked candidates |
| Reconcile.RunOverDistinct | scripts/claude-bridge.py:207-229 | over candidates without repeats, every valid name is counted once: linked, skipped because present beforehand, or blocked |
| Reconcile.RunIdle | scripts/claude-bridge.py:209-210 | when every candidate is occupied, the pass changes nothing and skips each one |
| Reconcile.CleanupStep | scripts/claude-bridge.py:233-237 | one entry of the cleanup listing is removed and counted exactly when it is out of the valid set, in scope, and its removal succeeds |
| Reconcile.SyncedIsSafe | scripts/claude-bridge.py:231-245 | whatever fails, a sync adds only valid names, leaves every entry that is valid or out of scope as it was, and never removes a directory with contents |
| Reconcile.SyncConverges | scripts/claude-bridge.py:188-245 | with no failures and no doomed non-empty directory, the in-scope names after one sync are exactly the valid names |
| Reconcile.PluginsConverge | scripts/claude-bridge.py:231-237 | under the same conditions, the plugin destination holds exactly the valid plugin names |
| Reconcile.WorkflowsConverge | scripts/claude-bridge.py:239-245 | under the same conditions, the `cb__` entries of the workflow destination are exactly the valid workflow names |
| Reconcile.ForeignWorkflowsUntouched | scripts/claude-bridge.py:242 | whatever fails, a workflow entry without the `cb__` prefix is left as it was |
| Reconcile.AllValidOccupied | scripts/claude-bridge.py:209 | after a fault-free sync of a convergent destination, every valid name is occupied |
| Reconcile.NothingLeftToRemove | scripts/claude-bridge.py:231-245 | after a fault-free sync of a convergent destination, the cleanup finds nothing to remove |
| Reconcile.SyncIdempotent | scripts/claude-bridge.py:188-245 | a second fault-free sync with unchanged sources changes nothing, creates nothing, removes nothing and counts every candidate as present |
| Reconcile.DanglingJunctionPersists | scripts/claude-bridge.py:209 | a dangling junction at a valid name survives every sync and is never counted as present |
| Resolver.MatchesAt | scripts/claude-bridge.py:142 | an entry is a candidate exactly when the query occurs in its name at some position; dangling links are included |
| Resolver.Resolve | scripts/claude-bridge.py:136-152 | over an existing directory, a found name is either the query itself, when its path exists, or an entry whose name contains the query; the missing-directory error does not arise |
| Resolver.ResolveIn | scripts/claude-bridge.py:136-152 | when the directory is missing, only a query whose path leads to something existing outside it is found; every other query hits the listing error (`DirectoryMissing`), and that error arises only then |
| Resolver.ExactWins | scripts/claude-bridge.py:138-140 | an existing entry named exactly as the query is returned, even though it is among the substring matches too |
| Resolver.FoundUnique | scripts/claude-bridge.py:142-144 | without an exact hit, the query resolves to `n` exactly when `n` is the only entry containing it |
| Resolver.NotFoundExactly | scripts/claude-bridge.py:150-152 | the query is not found exactly when there is no exact hit and no entry contains it |
| Resolver.AmbiguousExactly | scripts/claude-bridge.py:145-149 | the query is ambiguous exactly when there is no exact hit and two or more entries contain it; the failure lists every one |
| Resolver.DirectoryItselfResolves | scripts/claude-bridge.py:138-140 | the empty query and `.` name the plugins directory itself, which is returned |
| Resolver.ExampleExact | scripts/claude-bridge.py:138-140 | `m__foo` resolves to itself although `m__foobar` contains it |
| Resolver.ExampleUnique | scripts/claude-bridge.py:142-144 | `bar` resolves to `m__foobar`, the one name containing it |
| Resolver.ExampleAmbiguous | scripts/claude-bridge.py:145-149 | `foo` is ambiguous between `m__foo` and `m__foobar` |
| Resolver.ExampleDangling | scripts/claude-bridge.py:138-144 | a dangling `m__old` is no exact hit but still resolves by substring |
| Resolver.ExampleNotFound | scripts/claude-bridge.py:150-152 | `zzz` is not found |
| Bridge.Bridge.constructor | scripts/claude-bridge.py:180-186 | the destinations are absent or hold the given entries; the valid lists are empty and the counters zero |
| Bridge.Bridge.CreateLink | scripts/claude-bridge.py:85-98 | succeeds exactly when the name is free and the system allows it, and then adds the directory link |
| Bridge.Bridge.CreateFileLink | scripts/claude-bridge.py:101-114 | succeeds exactly when the name is free and the system allows it, and then adds the file link |
| Bridge.Bridge.RemoveLink | scripts/claude-bridge.py:117-133 | succeeds exactly when the platform's call for that kind of entry can succeed, and then removes just that entry of that destination |
| Bridge.Bridge.LinkPlugin | scripts/claude-bridge.py:205-214 | records the name as valid; skips it when occupied; otherwise one create, counted if it succeeds |
| Bridge.Bridge.LinkWorkflow | scripts/claude-bridge.py:220-229 | the same for one workflow candidate |
| Bridge.Bridge.ScanCommandFiles | scripts/claude-bridge.py:216-229 | in any order, each command file is one workflow candidate: its name is recorded, once per file, and the workflow side is the create pass over the names recorded |
| Bridge.Bridge.ScanPlugin | scripts/claude-bridge.py:205-229 | one plugin candidate, then one workflow candidate per command file; the workflow list grows by exactly the number of command files |
| Bridge.Bridge.ScanEntry | scripts/claude-bridge.py:199-203 | a plugin-base entry is scanned exactly when it is a directory that passes the classifier; it then adds one plugin name and one workflow name per command file, and otherwise none |
| Bridge.Bridge.ScanMarketplace | scripts/claude-bridge.py:195-229 | the names recorded for one marketplace are those of its plugin base, one per candidate, and each destination is the create pass over them |
| Bridge.Bridge.WalkEntry | scripts/claude-bridge.py:188-190 | a root entry is scanned exactly when it is a visible directory, and then adds one name per candidate of its plugin base |
| Bridge.Bridge.WalkStep | scripts/claude-bridge.py:188-229 | visiting one more root entry extends the walk's progress: the names and counts of the marketplaces visited, and the create pass over them |
| Bridge.Bridge.Walk | scripts/claude-bridge.py:180-229 | the recorded names are exactly the valid names, one per candidate, and each destination and its counters are the create pass over them in recorded order |
| Bridge.Bridge.Scan | scripts/claude-bridge.py:180-229 | each destination gains a link at every free, unrefused valid name; `linked` counts those; every candidate is linked, skipped or blocked; the lists hold one name per candidate; with separable names, `skipped` is the number of valid names present beforehand |
| Bridge.Bridge.CleanupPluginEntry | scripts/claude-bridge.py:234-237 | an entry not recorded as valid is handed to `remove_link`, and a success is counted |
| Bridge.Bridge.CleanupWorkflowEntry | scripts/claude-bridge.py:242-245 | only a `cb__` entry not recorded as valid is handed to `remove_link`, and a success is counted |
| Bridge.Bridge.CleanupPlugins | scripts/claude-bridge.py:231-237 | in any listing order, the plugin destination ends as the cleanup function says, and `removed` counts its removals |
| Bridge.Bridge.CleanupWorkflows | scripts/claude-bridge.py:239-245 | the same for the workflow destination, with only `cb__` entries in scope |
| Bridge.Bridge.CleanupBoth | scripts/claude-bridge.py:231-245 | both cleanups, each on its own destination, the rest of the state unchanged |
| Bridge.Bridge.SyncMarketplace | scripts/claude-bridge.py:180-250 | the valid names and the bridged counts, both destinations after create and cleanup, and all six counters (`skipped` through the linked/skipped/blocked account, and in closed form for separable names), as functions of the tree and the old destinations |
| Bridge.Bridge.Sync | scripts/claude-bridge.py:173-250 | a missing marketplace changes nothing; otherwise both destinations are made; a marketplace that is not a directory stops the run there; otherwise every postcondition of `SyncMarketplace` holds, the linked/skipped/blocked account included |

## Left out

- Printing: the banner, the per-entry messages, the summary and every error message are not modelled. The summary's figures are the fields: "bridged" is the length of the recorded list `validPlugins` / `validWorkflows`, pinned to the number of candidates.
- Home-directory path getters and `platform.system()` become parameters: the marketplace tree, the two destination listings, and `Env.isWindows`.
- Sorting of listings is not modelled: every listing is visited in an arbitrary order, and the results are proved for all orders. Sorting only changes the order of the log lines.
- Link targets are not recorded: a destination entry is only a name and a kind. So "the link points at this plugin" is not stated, and a valid name already held by a link to somewhere else is skipped, as in the source.
- The real OS link calls (`mklink /J`, `mklink /H`, `os.symlink`, `unlink`, `rmdir`, `remove`) are abstract. Their failures are the fault sets in `Env`; the one structural rule kept is that `rmdir` refuses a directory with contents and `unlink`/`remove` refuse a real directory.
- A hard link made on Windows is modelled as a regular file; that its contents track the source file is not modelled.
- `mkdir(parents=True, exist_ok=True)` is modelled as "the destination now exists". A destination path held by a non-directory, which makes `mkdir` raise, is not modelled.
- Errors while listing inside the marketplace tree (permissions, races) are not modelled. The only listing failure modelled in `sync` is a marketplace root that exists but is not a directory (`Outcome.MarketplaceUnreadable`).
- Symbolic links inside the marketplace tree are seen as what they resolve to. Link cycles are not modelled.
- Scanner.IsMarkdownName: matches names ending in `.md` case-sensitively, as `glob` does on POSIX. Windows matches `*.md` case-insensitively; that is not modelled.
- Resolver.Resolve: returns the entry name instead of the resolved path, because `Path.resolve()` needs the link targets. For a query that is not a plain entry name (`""`, `.`, `..`, or one containing `/`), whether the joined path exists is a parameter.
- The printed messages and `sys.exit(1)` of the resolver's failures become the `NotFound` and `Ambiguous` results, and the uncaught listing error becomes `DirectoryMissing`.
- Case-insensitive filesystems (Windows, and macOS by default) are not modelled. A `Listing` is a map keyed by exact names, and the model assumes case-sensitive lookup. On those systems the existence tests and lookups at lines 82, 139, 196, 209, 218 and 224 ignore case. The cleanup at lines 234 and 242 compares names with case-sensitive string equality, as does the substring match at line 142. Example: a stale `A__foo` stays in the plugin destination after plugin `foo` is renamed `Foo`. Then `A__Foo` counts as already present and is skipped, and the cleanup removes `A__foo`, which is the same entry, so the plugin ends the run without a link. `Reconcile.SyncConverges`, `Reconcile.SyncIdempotent` and the `Bridge` contracts describe case-sensitive filesystems only.
- Resolver.IsPlainName: treats only `/` as a path separator. On Windows a query containing `\` also leads out of the directory; that is not modelled.
- `main`, argument parsing, `cmd_list`, `cmd_info`, `cmd_run` and `cmd_translate_readme` are outside the engine.
- Concurrent runs of `sync` are not modelled; nothing in the source locks the destinations.
