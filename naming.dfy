/** Name-encoded provenance: the names under which plugins and workflow
    files are linked, and how those names split back into their parts. */
module Naming {
  import opened FileSystem

  /** The separator between the parts of a link name. */
  const Sep: string := "__"

  /** The prefix that marks a workflow entry as owned by the bridge. */
  const OwnerPrefix: string := "cb__"

  /** Name of the link to plugin `plugin` of marketplace `mp`. */
  function PluginId(mp: string, plugin: string): string {
    mp + Sep + plugin
  }

  /** Name of the link to command file `file` of that plugin. The result
      carries the ownership prefix and keeps the file name (and so its
      `.md` extension) at its end. */
  function WorkflowId(mp: string, plugin: string, file: string): (r: string)
    ensures StartsWith(r, OwnerPrefix)
    ensures EndsWith(r, file)
  {
    var r := OwnerPrefix + mp + Sep + plugin + Sep + file;
    assert r[|r| - |file|..] == file;
    r
  }

  predicate ContainsSep(s: string) {
    IsInfix(Sep, s)
  }

  /** A name part that splits back unambiguously when it comes before a
      separator: it holds no separator and does not end with `_` (otherwise
      the part's last `_` and the separator's first would pair up). */
  predicate SafePart(s: string) {
    !ContainsSep(s) && !EndsWith(s, "_")
  }

  /** Position of the first separator in `s`, if any. */
  function SepIndex(s: string): (r: Option<nat>)
    ensures r.Some? ==> r.value + |Sep| <= |s| && s[r.value..r.value + |Sep|] == Sep
    ensures r.None? ==> !ContainsSep(s)
  {
    if |s| < 2 then NoInfixLongerThan(Sep, s); None
    else if s[0] == '_' && s[1] == '_' then Some(0)
    else match SepIndex(s[1..])
      case None => None
      case Some(i) => Some(i + 1)
  }

  /** Splits `s` at its first separator. */
  function SplitFirst(s: string): Option<(string, string)> {
    match SepIndex(s)
    case None => None
    case Some(i) => Some((s[..i], s[i + |Sep|..]))
  }

  /** Reads a plugin link name back into (marketplace, plugin). */
  function ParsePluginId(s: string): Option<(string, string)> {
    SplitFirst(s)
  }

  /** Reads a workflow link name back into (marketplace, plugin, file). */
  function ParseWorkflowId(s: string): Option<(string, string, string)> {
    if !StartsWith(s, OwnerPrefix) then None
    else match SplitFirst(s[|OwnerPrefix|..])
      case None => None
      case Some((mp, rest)) =>
        match SplitFirst(rest)
        case None => None
        case Some((plugin, file)) => Some((mp, plugin, file))
  }

  /** A safe part stays safe without its first character. */
  lemma SafeTail(a: string)
    requires SafePart(a) && a != []
    ensures SafePart(a[1..])
  {
    assert ContainsSep(a[1..]) ==> ContainsSep(a);
    if a[1..] != [] {
      assert a[1..][|a[1..]| - 1..] == a[|a| - 1..];
    }
  }

  /** A joined name whose first part is safe and not empty does not start
      with the separator. */
  lemma NoSepAtHead(a: string, b: string)
    requires SafePart(a) && a != []
    ensures var s := a + Sep + b; !(s[0] == '_' && s[1] == '_')
  {
    var s := a + Sep + b;
    if |a| >= 2 {
      assert s[0] == a[0] && s[1] == a[1];
      assert a[0] == '_' && a[1] == '_' ==> Sep <= a;
    } else {
      assert s[0] == a[0];
      assert a[0] == '_' ==> EndsWith(a, "_");
    }
  }

  /** The first separator of `a + Sep + b` lies one further on than that
      of the same name without `a`'s first character. */
  lemma SepIndexStep(a: string, b: string)
    requires SafePart(a) && a != []
    requires SepIndex(a[1..] + Sep + b) == Some(|a| - 1)
    ensures SepIndex(a + Sep + b) == Some(|a|)
  {
    var s := a + Sep + b;
    NoSepAtHead(a, b);
    assert s[1..] == a[1..] + Sep + b;
  }

  /** The first separator of `a + Sep + b` is the one put there, when `a`
      is a safe part. */
  lemma {:induction false} SepIndexOfJoin(a: string, b: string)
    requires SafePart(a)
    ensures SepIndex(a + Sep + b) == Some(|a|)
    decreases |a|
  {
    if a == [] {
      var s := a + Sep + b;
      assert s == Sep + b;
      assert |s| >= 2 && s[0] == '_' && s[1] == '_';
    } else {
      SafeTail(a);
      SepIndexOfJoin(a[1..], b);
      SepIndexStep(a, b);
    }
  }

  /** Splitting a joined name at its first separator gives the parts back. */
  lemma SplitFirstOfJoin(a: string, b: string)
    requires SafePart(a)
    ensures SplitFirst(a + Sep + b) == Some((a, b))
  {
    SepIndexOfJoin(a, b);
    var s := a + Sep + b;
    assert s[..|a|] == a;
    assert s[|a| + |Sep|..] == b;
  }

  /** A plugin link name reads back as the marketplace and plugin it was
      made from. */
  lemma ParsePluginIdRoundTrip(mp: string, plugin: string)
    requires SafePart(mp)
    ensures ParsePluginId(PluginId(mp, plugin)) == Some((mp, plugin))
  {
    SplitFirstOfJoin(mp, plugin);
  }

  /** A workflow link name reads back as the marketplace, plugin and file it
      was made from. */
  lemma ParseWorkflowIdRoundTrip(mp: string, plugin: string, file: string)
    requires SafePart(mp) && SafePart(plugin)
    ensures ParseWorkflowId(WorkflowId(mp, plugin, file)) == Some((mp, plugin, file))
  {
    var rest := plugin + Sep + file;
    var s := WorkflowId(mp, plugin, file);
    assert s == OwnerPrefix + (mp + Sep + rest);
    assert s[|OwnerPrefix|..] == mp + Sep + rest;
    SplitFirstOfJoin(mp, rest);
    SplitFirstOfJoin(plugin, file);
  }

  /** Distinct (marketplace, plugin) pairs get distinct link names, provided
      marketplace names are safe parts. */
  lemma PluginIdInjective(mp1: string, p1: string, mp2: string, p2: string)
    requires SafePart(mp1) && SafePart(mp2)
    requires PluginId(mp1, p1) == PluginId(mp2, p2)
    ensures mp1 == mp2 && p1 == p2
  {
    ParsePluginIdRoundTrip(mp1, p1);
    ParsePluginIdRoundTrip(mp2, p2);
  }

  /** Distinct (marketplace, plugin, file) triples get distinct workflow
      names, provided marketplace and plugin names are safe parts. */
  lemma WorkflowIdInjective(mp1: string, p1: string, f1: string, mp2: string, p2: string, f2: string)
    requires SafePart(mp1) && SafePart(p1) && SafePart(mp2) && SafePart(p2)
    requires WorkflowId(mp1, p1, f1) == WorkflowId(mp2, p2, f2)
    ensures mp1 == mp2 && p1 == p2 && f1 == f2
  {
    ParseWorkflowIdRoundTrip(mp1, p1, f1);
    ParseWorkflowIdRoundTrip(mp2, p2, f2);
  }

  /** Keeping the separator out of the parts is not enough on its own: a
      marketplace ending in `_` collides with a plugin starting with `_`.
      (With separators inside the parts, collisions are plainer still.) */
  lemma SeparatorFreePartsCanCollide()
    ensures !ContainsSep("a_") && !ContainsSep("_b")
    ensures PluginId("a_", "b") == PluginId("a", "_b")
    ensures PluginId("a__b", "c") == PluginId("a", "b__c")
  {
    assert !(Sep <= "a_") by { assert "a_"[0] != Sep[0]; }
    assert !(Sep <= "_b") by { assert "_b"[1] != Sep[1]; }
    assert "a_"[1..] == "_";
    assert "_b"[1..] == "b";
    NoInfixLongerThan(Sep, "_");
    NoInfixLongerThan(Sep, "b");
  }
}
