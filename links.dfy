/** The link primitives: what `create_link`, `create_file_link` and
    `remove_link` do to one destination directory, and when they succeed.

    The operating system's verdict on a call (permissions, a full disk, a
    missing target, `mklink` failing) is not something the bridge controls;
    it comes in as a set of names for which the call fails. */
module Links {
  import opened FileSystem

  /** Names for which creating, respectively removing, a link in one
      destination directory fails. */
  datatype Faults = Faults(createFails: set<string>, removeFails: set<string>)

  const NoFaults: Faults := Faults({}, {})

  /** What the environment decides for one run: the platform, and which link
      operations fail in the plugin and the workflow destinations. */
  datatype Env = Env(isWindows: bool, pluginFaults: Faults, workflowFaults: Faults)

  predicate FaultFree(env: Env) {
    env.pluginFaults == NoFaults && env.workflowFaults == NoFaults
  }

  /** The entry `create_link` leaves: a junction (`mklink /J`) on Windows, a
      symbolic link elsewhere. */
  function DirLinkKind(isWindows: bool): (k: EntryKind)
    ensures Exists(k) && IsDir(k) && !IsRealDir(k)
  {
    if isWindows then Junction else DirSymlink
  }

  /** The entry `create_file_link` leaves: a hard link (`mklink /H`), which
      is a plain file, on Windows; a symbolic link elsewhere. */
  function FileLinkKind(isWindows: bool): (k: EntryKind)
    ensures Exists(k) && IsFile(k) && !IsDir(k)
  {
    if isWindows then RegularFile else FileSymlink
  }

  /** Whether creating a link called `name` in `d` succeeds: both
      `os.symlink` and `mklink` refuse a name that is already taken. */
  predicate CreateSucceeds(d: Listing, name: string, fails: set<string>) {
    name !in d && name !in fails
  }

  /** The system call `remove_link` makes. */
  datatype OsCall = Unlink | Rmdir | Remove

  /** `remove_link`'s choice of call: on Windows `os.rmdir` for whatever
      `is_dir()` holds of and `os.remove` otherwise; elsewhere `unlink` for a
      symbolic link or a file and `os.rmdir` otherwise. */
  function RemovalCall(k: EntryKind, isWindows: bool): OsCall {
    if isWindows then
      (if IsDir(k) then Rmdir else Remove)
    else if IsSymlink(k) || IsFile(k) then Unlink
    else Rmdir
  }

  /** Whether the system can carry out the call on that entry: `rmdir`
      refuses a directory with contents, and `unlink`/`remove` refuse a real
      directory. Removing a link never touches what it points to. */
  predicate CallMaySucceed(call: OsCall, k: EntryKind) {
    match call
    case Rmdir => !k.NonEmptyDir?
    case Unlink => !IsRealDir(k)
    case Remove => !IsRealDir(k)
  }

  /** Whether `remove_link` on entry `name` of `d` succeeds. */
  predicate RemoveSucceeds(d: Listing, name: string, isWindows: bool, fails: set<string>) {
    name in d && name !in fails && CallMaySucceed(RemovalCall(d[name], isWindows), d[name])
  }

  /** A real directory only ever reaches `rmdir`, which does not recurse; so
      on either platform removal succeeds exactly when the entry is there,
      the system allows it, and it is not a directory with contents. */
  lemma RemoveSucceedsExactly(d: Listing, name: string, isWindows: bool, fails: set<string>)
    ensures name in d && IsRealDir(d[name]) ==> RemovalCall(d[name], isWindows) == Rmdir
    ensures RemoveSucceeds(d, name, isWindows, fails) <==>
              name in d && name !in fails && !d[name].NonEmptyDir?
  {
  }
}
