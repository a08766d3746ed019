/** The reconciler's effect on one destination directory, as functions:
    the create pass over the candidate names in scan order, the cleanup of
    entries that no longer name a candidate, and what the two together
    guarantee (convergence, idempotence, scoping of the cleanup). */
module Reconcile {
  import opened FileSystem
  import opened Naming
  import opened Links
  import opened Scanner

  /** The state of a create pass: the destination so far and the counts of
      links made and of candidates found already present. */
  datatype Pass = Pass(dest: Listing, linked: nat, skipped: nat)

  /** One candidate: an occupied name (existing, or a symbolic link even if
      dangling) is skipped; otherwise one create is attempted and counted
      when it succeeds. */
  function Step(p: Pass, id: string, fails: set<string>, kind: EntryKind): Pass {
    if Occupied(p.dest, id) then p.(skipped := p.skipped + 1)
    else if CreateSucceeds(p.dest, id, fails) then Pass(p.dest[id := kind], p.linked + 1, p.skipped)
    else p
  }

  /** The create pass over the candidates `ids`, in order. */
  function Run(p: Pass, ids: seq<string>, fails: set<string>, kind: EntryKind): Pass
    decreases |ids|
  {
    if ids == [] then p
    else Step(Run(p, ids[..|ids| - 1], fails, kind), ids[|ids| - 1], fails, kind)
  }

  /** Running over `a` and then over `b` is running over `a + b`. */
  lemma {:induction false} RunAppend(p: Pass, a: seq<string>, b: seq<string>, fails: set<string>, kind: EntryKind)
    ensures Run(Run(p, a, fails, kind), b, fails, kind) == Run(p, a + b, fails, kind)
    decreases |b|
  {
    if b == [] {
      assert a + b == a;
    } else {
      assert (a + b)[..|a + b| - 1] == a + b[..|b| - 1];
      assert (a + b)[|a + b| - 1] == b[|b| - 1];
      RunAppend(p, a, b[..|b| - 1], fails, kind);
    }
  }

  /** One more candidate at the end is one more step. */
  lemma RunSnoc(p: Pass, ids: seq<string>, x: string, fails: set<string>, kind: EntryKind)
    ensures Run(p, ids + [x], fails, kind) == Step(Run(p, ids, fails, kind), x, fails, kind)
  {
    assert (ids + [x])[..|ids + [x]| - 1] == ids;
  }

  /** Recording one more candidate `x` after the prefix `v0` of the
      candidate list `v`: the pass over the new suffix is one more step,
      and `x` joins the recorded names. */
  lemma ExtendByOne(p: Pass, v0: seq<string>, v: seq<string>, x: string, fails: set<string>, kind: EntryKind)
    requires v0 <= v
    ensures v0 <= v + [x]
    ensures Run(p, (v + [x])[|v0|..], fails, kind) == Step(Run(p, v[|v0|..], fails, kind), x, fails, kind)
    ensures Elems(v + [x]) == Elems(v) + {x}
  {
    assert (v + [x])[|v0|..] == v[|v0|..] + [x];
    RunSnoc(p, v[|v0|..], x, fails, kind);
    ElemsOfSnoc(v + [x]);
    assert (v + [x])[..|v + [x]| - 1] == v;
  }

  /** A pass over the suffix `v2[|v1|..]` continues a pass over the suffix
      `v1[|v0|..]`, for nested prefixes `v0 <= v1 <= v2` of the candidate
      list. */
  lemma RunExtends(p: Pass, v0: seq<string>, v1: seq<string>, v2: seq<string>, fails: set<string>, kind: EntryKind)
    requires v0 <= v1 && v1 <= v2
    ensures Run(Run(p, v1[|v0|..], fails, kind), v2[|v1|..], fails, kind) == Run(p, v2[|v0|..], fails, kind)
  {
    RunAppend(p, v1[|v0|..], v2[|v1|..], fails, kind);
    assert v1[|v0|..] + v2[|v1|..] == v2[|v0|..];
  }

  /** The destination after creating links for the names `ids`: existing
      entries stay as they are, and every name that was free and whose
      create does not fail gets a new link. */
  function Created(d: Listing, ids: set<string>, fails: set<string>, kind: EntryKind): (r: Listing)
    ensures r.Keys == d.Keys + (ids - fails)
  {
    map n | n in d.Keys + (ids - fails) :: if n in d then d[n] else kind
  }

  /** Candidate names for which nothing is done: not occupied, and a create
      would fail (a dangling junction holds the name, or the system refuses). */
  function Blocked(d: Listing, fails: set<string>): set<string> {
    set n | n in d.Keys + fails && !Occupied(d, n) && !CreateSucceeds(d, n, fails)
  }

  /** Every candidate in `ids` is counted once: as linked, as already
      present (skipped), or as blocked in the listing `d` as it was. */
  predicate Accounted(linked: nat, skipped: nat, ids: seq<string>, d: Listing, fails: set<string>) {
    linked + skipped + CountIn(ids, Blocked(d, fails)) == |ids|
  }

  /** How many of the entries of `ids` lie in `s`. */
  function CountIn(ids: seq<string>, s: set<string>): (r: nat)
    ensures r <= |ids|
    ensures (forall k :: 0 <= k < |ids| ==> ids[k] !in s) ==> r == 0
    decreases |ids|
  {
    if ids == [] then 0
    else CountIn(ids[..|ids| - 1], s) + (if ids[|ids| - 1] in s then 1 else 0)
  }

  /** What a create pass has done after the candidates in `e`: the
      destination is `Created` of them and one link is counted per name
      newly made. */
  predicate CreatedSoFar(d: Listing, e: set<string>, r: Pass, fails: set<string>, kind: EntryKind) {
    r.dest == Created(d, e, fails, kind) && r.linked == |e - d.Keys - fails|
  }

  /** A candidate name that is already taken, refused, or seen before
      changes nothing. */
  lemma CreatedUnchanged(d: Listing, e: set<string>, x: string, fails: set<string>, kind: EntryKind)
    requires x in d || x in fails || x in e
    ensures Created(d, e + {x}, fails, kind) == Created(d, e, fails, kind)
  {
    var c0, c1 := Created(d, e, fails, kind), Created(d, e + {x}, fails, kind);
    assert c0.Keys == c1.Keys;
    forall n | n in c0 ensures c0[n] == c1[n] {
    }
  }

  /** With no candidates the destination is as it was. */
  lemma CreatedNothing(d: Listing, fails: set<string>, kind: EntryKind)
    ensures Created(d, {}, fails, kind) == d
  {
    var c := Created(d, {}, fails, kind);
    assert c.Keys == d.Keys;
    forall n | n in c ensures c[n] == d[n] {
    }
  }

  /** A fresh candidate name that is free and not refused gets a link. */
  lemma CreatedGrows(d: Listing, e: set<string>, x: string, fails: set<string>, kind: EntryKind)
    requires x !in d && x !in fails
    ensures Created(d, e + {x}, fails, kind) == Created(d, e, fails, kind)[x := kind]
  {
    var c0, c1 := Created(d, e, fails, kind), Created(d, e + {x}, fails, kind);
    assert c1.Keys == c0[x := kind].Keys;
    forall n | n in c1 ensures c1[n] == c0[x := kind][n] {
    }
  }

  lemma OneMoreNewName(e: set<string>, x: string, a: set<string>, b: set<string>)
    requires x !in a && x !in b && x !in e
    ensures |e + {x} - a - b| == |e - a - b| + 1
  {
    assert e + {x} - a - b == (e - a - b) + {x};
  }

  lemma SameNewNames(e: set<string>, x: string, a: set<string>, b: set<string>)
    requires x in a || x in b || x in e
    ensures |e + {x} - a - b| == |e - a - b|
  {
    assert e + {x} - a - b == e - a - b;
  }

  lemma BlockedExactly(d: Listing, fails: set<string>, x: string)
    ensures x in Blocked(d, fails) <==> !Occupied(d, x) && (x in d || x in fails)
  {
  }

  /** The entry `Created` holds at one name. */
  lemma CreatedAt(d: Listing, e: set<string>, x: string, fails: set<string>, kind: EntryKind)
    ensures x in Created(d, e, fails, kind) <==> x in d || (x in e && x !in fails)
    ensures x in d ==> Created(d, e, fails, kind)[x] == d[x]
    ensures x !in d && x in e && x !in fails ==> Created(d, e, fails, kind)[x] == kind
  {
  }

  /** A candidate whose name is taken, refused or seen before is skipped
      when occupied and blocked otherwise; the pass still agrees with
      `Created`. */
  lemma StepOnTaken(d: Listing, e: set<string>, r: Pass, x: string, fails: set<string>, kind: EntryKind)
    requires x in d || x in fails || x in e
    requires Exists(kind)
    requires CreatedSoFar(d, e, r, fails, kind)
    ensures CreatedSoFar(d, e + {x}, Step(r, x, fails, kind), fails, kind)
    ensures Step(r, x, fails, kind).linked + Step(r, x, fails, kind).skipped
            + (if x in Blocked(d, fails) then 1 else 0) == r.linked + r.skipped + 1
  {
    CreatedAt(d, e, x, fails, kind);
    CreatedUnchanged(d, e, x, fails, kind);
    SameNewNames(e, x, d.Keys, fails);
    BlockedExactly(d, fails, x);
    if Occupied(r.dest, x) {
      assert Step(r, x, fails, kind) == r.(skipped := r.skipped + 1);
      assert x !in Blocked(d, fails);
    } else {
      assert !CreateSucceeds(r.dest, x, fails);
      assert Step(r, x, fails, kind) == r;
      assert x in Blocked(d, fails);
    }
  }

  /** A fresh, free, unrefused candidate is linked. */
  lemma StepOnFresh(d: Listing, e: set<string>, r: Pass, x: string, fails: set<string>, kind: EntryKind)
    requires x !in d && x !in fails && x !in e
    requires CreatedSoFar(d, e, r, fails, kind)
    ensures CreatedSoFar(d, e + {x}, Step(r, x, fails, kind), fails, kind)
    ensures Step(r, x, fails, kind).linked + Step(r, x, fails, kind).skipped
            + (if x in Blocked(d, fails) then 1 else 0) == r.linked + r.skipped + 1
  {
    CreatedAt(d, e, x, fails, kind);
    assert x !in r.dest;
    var r1 := Step(r, x, fails, kind);
    assert r1 == Pass(r.dest[x := kind], r.linked + 1, r.skipped);
    CreatedGrows(d, e, x, fails, kind);
    OneMoreNewName(e, x, d.Keys, fails);
    BlockedExactly(d, fails, x);
  }

  /** One more candidate keeps `CreatedSoFar`, and is linked, skipped or
      blocked. */
  lemma StepKeepsCreated(d: Listing, e: set<string>, r: Pass, x: string, fails: set<string>, kind: EntryKind)
    requires Exists(kind)
    requires CreatedSoFar(d, e, r, fails, kind)
    ensures CreatedSoFar(d, e + {x}, Step(r, x, fails, kind), fails, kind)
    ensures Step(r, x, fails, kind).linked + Step(r, x, fails, kind).skipped
            + (if x in Blocked(d, fails) then 1 else 0) == r.linked + r.skipped + 1
  {
    if x in d || x in fails || x in e {
      StepOnTaken(d, e, r, x, fails, kind);
    } else {
      StepOnFresh(d, e, r, x, fails, kind);
    }
  }

  /** The create pass, whatever the order of the candidates: the result is
      `Created` of the set of candidate names, one link is counted per name
      newly made, and every candidate is either linked, skipped or blocked. */
  lemma {:induction false} RunFromScratch(d: Listing, ids: seq<string>, fails: set<string>, kind: EntryKind)
    requires Exists(kind)
    ensures CreatedSoFar(d, Elems(ids), Run(Pass(d, 0, 0), ids, fails, kind), fails, kind)
    ensures Run(Pass(d, 0, 0), ids, fails, kind).linked + Run(Pass(d, 0, 0), ids, fails, kind).skipped
            + CountIn(ids, Blocked(d, fails)) == |ids|
    decreases |ids|
  {
    if ids == [] {
      CreatedNothing(d, fails, kind);
    } else {
      var init, x := ids[..|ids| - 1], ids[|ids| - 1];
      RunFromScratch(d, init, fails, kind);
      ElemsOfSnoc(ids);
      var r0 := Run(Pass(d, 0, 0), init, fails, kind);
      StepKeepsCreated(d, Elems(init), r0, x, fails, kind);
      assert Run(Pass(d, 0, 0), ids, fails, kind) == Step(r0, x, fails, kind);
      assert CountIn(ids, Blocked(d, fails)) == CountIn(init, Blocked(d, fails)) + (if x in Blocked(d, fails) then 1 else 0);
    }
  }

  /** The create pass over a candidate list whose names form the set
      `valid`, stated in terms of that set. */
  lemma RunOver(d: Listing, ids: seq<string>, valid: set<string>, p: Pass, fails: set<string>, kind: EntryKind)
    requires Exists(kind)
    requires Elems(ids) == valid
    requires p == Run(Pass(d, 0, 0), ids, fails, kind)
    ensures p.dest == Created(d, valid, fails, kind)
    ensures p.linked == |valid - d.Keys - fails|
    ensures Accounted(p.linked, p.skipped, ids, d, fails)
  {
    RunFromScratch(d, ids, fails, kind);
  }

  /** The entries of `d` that a create pass finds already present. */
  function Taken(d: Listing): set<string> {
    set n | n in d && Occupied(d, n)
  }

  /** Over candidates that are all distinct, the pass skips exactly the
      candidates already present in the destination as it was, and leaves
      exactly the blocked ones alone. */
  lemma {:induction false} RunDistinct(d: Listing, ids: seq<string>, fails: set<string>, kind: EntryKind)
    requires Exists(kind)
    requires |Elems(ids)| == |ids|
    ensures Run(Pass(d, 0, 0), ids, fails, kind).skipped == |Elems(ids) * Taken(d)|
    ensures CountIn(ids, Blocked(d, fails)) == |Elems(ids) * Blocked(d, fails)|
    decreases |ids|
  {
    if ids != [] {
      var init, x := ids[..|ids| - 1], ids[|ids| - 1];
      ElemsOfSnoc(ids);
      ElemsBound(init);
      assert x !in Elems(init);
      RunDistinct(d, init, fails, kind);
      RunFromScratch(d, init, fails, kind);
      var r0 := Run(Pass(d, 0, 0), init, fails, kind);
      StepOnNew(d, Elems(init), r0, x, fails, kind);
      assert Run(Pass(d, 0, 0), ids, fails, kind) == Step(r0, x, fails, kind);
      JoinOne(Elems(init), x, Taken(d));
      JoinOne(Elems(init), x, Blocked(d, fails));
    }
  }

  /** A candidate not seen before is skipped exactly when the destination
      as it was has it present. */
  lemma StepOnNew(d: Listing, e: set<string>, r: Pass, x: string, fails: set<string>, kind: EntryKind)
    requires x !in e
    requires CreatedSoFar(d, e, r, fails, kind)
    ensures Step(r, x, fails, kind).skipped == r.skipped + (if x in Taken(d) then 1 else 0)
  {
    CreatedAt(d, e, x, fails, kind);
    assert Occupied(r.dest, x) <==> x in Taken(d);
  }

  /** Adding a fresh element to `e` adds it to `e * s` exactly when it lies
      in `s`. */
  lemma JoinOne(e: set<string>, x: string, s: set<string>)
    requires x !in e
    ensures |(e + {x}) * s| == |e * s| + (if x in s then 1 else 0)
  {
    if x in s {
      assert (e + {x}) * s == e * s + {x};
    } else {
      assert (e + {x}) * s == e * s;
    }
  }

  /** `RunOver` for a candidate list without repeats: every valid name is
      linked, skipped because present, or blocked, and each count is that
      of a set of valid names. */
  lemma RunOverDistinct(d: Listing, ids: seq<string>, valid: set<string>, p: Pass, fails: set<string>, kind: EntryKind)
    requires Exists(kind)
    requires Elems(ids) == valid && |valid| == |ids|
    requires p == Run(Pass(d, 0, 0), ids, fails, kind)
    ensures p.skipped == |valid * Taken(d)|
    ensures p.linked + p.skipped + |valid * Blocked(d, fails)| == |valid|
  {
    RunDistinct(d, ids, fails, kind);
    RunFromScratch(d, ids, fails, kind);
  }

  /** Which destination entries the cleanup may touch: every entry of the
      plugin destination, only bridge-owned (`cb__`) entries of the shared
      workflow destination. */
  datatype Scope = Everything | OwnedOnly

  predicate InScope(name: string, scope: Scope) {
    scope.Everything? || StartsWith(name, OwnerPrefix)
  }

  /** An entry the cleanup tries to remove. */
  predicate Doomed(name: string, valid: set<string>, scope: Scope) {
    name !in valid && InScope(name, scope)
  }

  /** The entries among `within` that the cleanup removes successfully. */
  function Removals(d: Listing, within: set<string>, valid: set<string>, scope: Scope,
                    isWindows: bool, fails: set<string>): set<string>
  {
    set n | n in within && n in d && Doomed(n, valid, scope) && RemoveSucceeds(d, n, isWindows, fails)
  }

  /** Looking at one more entry `x` of `d` adds it to the removals exactly
      when it is doomed and its removal succeeds. */
  lemma RemovalsAdd(d: Listing, within: set<string>, x: string, valid: set<string>, scope: Scope,
                    isWindows: bool, fails: set<string>)
    requires x in d && x !in within
    ensures var r0 := Removals(d, within, valid, scope, isWindows, fails);
      var gone := Doomed(x, valid, scope) && RemoveSucceeds(d, x, isWindows, fails);
      && Removals(d, within + {x}, valid, scope, isWindows, fails) == r0 + (if gone then {x} else {})
      && x !in r0
      && |Removals(d, within + {x}, valid, scope, isWindows, fails)| == |r0| + (if gone then 1 else 0)
  {
  }

  /** Removing one more entry from what remains of `d`. */
  lemma RemoveOneMore(d: Listing, r: set<string>, x: string)
    ensures (d - r) - {x} == d - (r + {x})
  {
    var a, b := (d - r) - {x}, d - (r + {x});
    assert a.Keys == b.Keys;
    forall n | n in a ensures a[n] == b[n] {
    }
  }

  /** One more entry of the cleanup's listing, looked at in what is left
      of `d` so far: when its removal is attempted and succeeds, what is
      left is `d` less the removals with that entry included. */
  lemma CleanupStep(d: Listing, within: set<string>, x: string, valid: set<string>, scope: Scope,
                    isWindows: bool, fails: set<string>, removed: bool)
    requires x in d && x !in within
    requires removed <==> Doomed(x, valid, scope)
                          && RemoveSucceeds(d - Removals(d, within, valid, scope, isWindows, fails), x, isWindows, fails)
    ensures var r0 := Removals(d, within, valid, scope, isWindows, fails);
      var r1 := Removals(d, within + {x}, valid, scope, isWindows, fails);
      && (if removed then (d - r0) - {x} else d - r0) == d - r1
      && |r1| == |r0| + (if removed then 1 else 0)
  {
    var r0 := Removals(d, within, valid, scope, isWindows, fails);
    RemovalsAdd(d, within, x, valid, scope, isWindows, fails);
    assert (d - r0)[x] == d[x];
    RemoveOneMore(d, r0, x);
  }

  /** The destination after the cleanup. */
  function AfterCleanup(d: Listing, valid: set<string>, scope: Scope, isWindows: bool, fails: set<string>): Listing {
    d - Removals(d, d.Keys, valid, scope, isWindows, fails)
  }

  /** One destination after a whole sync: the create pass for the valid
      names, then the cleanup. */
  function Synced(d: Listing, valid: set<string>, scope: Scope, isWindows: bool, faults: Faults, kind: EntryKind): Listing {
    AfterCleanup(Created(d, valid, faults.createFails, kind), valid, scope, isWindows, faults.removeFails)
  }

  /** The entries the cleanup of a sync removes. */
  function SyncRemovals(d: Listing, valid: set<string>, scope: Scope, isWindows: bool, faults: Faults, kind: EntryKind): set<string> {
    var c := Created(d, valid, faults.createFails, kind);
    Removals(c, c.Keys, valid, scope, isWindows, faults.removeFails)
  }

  /** The plugin destination after a sync of `market`. */
  function SyncedPlugins(d: Listing, market: map<string, Node>, env: Env): Listing {
    Synced(d, ValidPluginIds(market), Everything, env.isWindows, env.pluginFaults, DirLinkKind(env.isWindows))
  }

  /** The workflow destination after a sync of `market`. */
  function SyncedWorkflows(d: Listing, market: map<string, Node>, env: Env): Listing {
    Synced(d, ValidWorkflowIds(market), OwnedOnly, env.isWindows, env.workflowFaults, FileLinkKind(env.isWindows))
  }

  /** What a sync never does, whatever fails: it adds no name that is not
      valid, it leaves every entry outside the cleanup's scope and every
      pre-existing entry at a valid name exactly as it was, and it never
      removes a directory with contents. */
  lemma SyncedIsSafe(d: Listing, valid: set<string>, scope: Scope, isWindows: bool, faults: Faults, kind: EntryKind)
    ensures Synced(d, valid, scope, isWindows, faults, kind).Keys <= d.Keys + valid
    ensures forall n :: n in d && (n in valid || !InScope(n, scope)) ==>
              n in Synced(d, valid, scope, isWindows, faults, kind) && Synced(d, valid, scope, isWindows, faults, kind)[n] == d[n]
    ensures forall n :: n in d && d[n].NonEmptyDir? ==> n in Synced(d, valid, scope, isWindows, faults, kind)
  {
    var c := Created(d, valid, faults.createFails, kind);
    forall n | n in d && d[n].NonEmptyDir?
      ensures n in Synced(d, valid, scope, isWindows, faults, kind)
    {
      assert c[n] == d[n];
      RemoveSucceedsExactly(c, n, isWindows, faults.removeFails);
    }
  }

  /** Cleanup-free destinations: no entry the cleanup would try to remove is
      a directory with contents, and no valid name is held by a dangling
      junction (which the existence test does not see). */
  predicate Convergent(d: Listing, valid: set<string>, scope: Scope) {
    (forall n :: n in d && Doomed(n, valid, scope) ==> !d[n].NonEmptyDir?)
    && (forall n :: n in d && n in valid ==> !d[n].DanglingJunction?)
  }

  /** Convergence: when no link operation fails, after one sync the entries
      in the cleanup's scope are exactly the valid names. */
  lemma {:induction false} SyncConverges(d: Listing, valid: set<string>, scope: Scope, isWindows: bool, kind: EntryKind)
    requires forall n :: n in d && Doomed(n, valid, scope) ==> !d[n].NonEmptyDir?
    ensures forall n :: InScope(n, scope) ==> (n in Synced(d, valid, scope, isWindows, NoFaults, kind) <==> n in valid)
  {
    var c := Created(d, valid, {}, kind);
    var r := Synced(d, valid, scope, isWindows, NoFaults, kind);
    forall n | InScope(n, scope)
      ensures n in r <==> n in valid
    {
      if n in valid {
        assert n in c;
        assert n !in Removals(c, c.Keys, valid, scope, isWindows, {});
      } else if n in c {
        assert n in d;
        RemoveSucceedsExactly(c, n, isWindows, {});
        assert n in Removals(c, c.Keys, valid, scope, isWindows, {});
      }
    }
  }

  /** A destination that already holds every valid name gains nothing from
      the create pass. */
  lemma CreatedIdle(d: Listing, valid: set<string>, kind: EntryKind)
    requires valid <= d.Keys
    ensures Created(d, valid, {}, kind) == d
  {
    var c := Created(d, valid, {}, kind);
    assert c.Keys == d.Keys;
    forall n | n in c ensures c[n] == d[n] {
    }
  }

  /** After a fault-free sync of a convergent destination, the cleanup
      finds nothing to remove: every remaining entry in scope is valid. */
  lemma NothingLeftToRemove(d: Listing, valid: set<string>, scope: Scope, isWindows: bool, kind: EntryKind)
    requires forall n :: n in d && Doomed(n, valid, scope) ==> !d[n].NonEmptyDir?
    ensures var d1 := Synced(d, valid, scope, isWindows, NoFaults, kind);
      Removals(d1, d1.Keys, valid, scope, isWindows, {}) == {}
  {
    var d1 := Synced(d, valid, scope, isWindows, NoFaults, kind);
    SyncConverges(d, valid, scope, isWindows, kind);
    forall n | n in d1 ensures n !in Removals(d1, d1.Keys, valid, scope, isWindows, {}) {
    }
  }

  /** After a fault-free sync of a convergent destination, every valid
      name is occupied, so the next create pass skips every candidate. */
  lemma AllValidOccupied(d: Listing, valid: set<string>, scope: Scope, isWindows: bool, kind: EntryKind)
    requires Convergent(d, valid, scope)
    requires Exists(kind)
    ensures var d1 := Synced(d, valid, scope, isWindows, NoFaults, kind);
      valid <= d1.Keys && forall n :: n in valid ==> Occupied(d1, n)
  {
    var d1 := Synced(d, valid, scope, isWindows, NoFaults, kind);
    var c := Created(d, valid, {}, kind);
    SyncedIsSafe(d, valid, scope, isWindows, NoFaults, kind);
    forall n | n in valid ensures n in d1 && Occupied(d1, n) {
      assert n in c;
      assert n !in Removals(c, c.Keys, valid, scope, isWindows, {});
      if n in d {
        assert d1[n] == d[n];
      } else {
        assert d1[n] == c[n] == kind;
      }
    }
  }

  /** A create pass over candidates that are all occupied only skips. */
  lemma {:induction false} RunIdle(d: Listing, ids: seq<string>, linked: nat, skipped: nat, fails: set<string>, kind: EntryKind)
    requires forall n :: n in ids ==> Occupied(d, n)
    ensures Run(Pass(d, linked, skipped), ids, fails, kind) == Pass(d, linked, skipped + |ids|)
    decreases |ids|
  {
    if ids != [] {
      var init := ids[..|ids| - 1];
      assert forall n :: n in init ==> n in ids;
      RunIdle(d, init, linked, skipped, fails, kind);
    }
  }

  /** Idempotence: when no link operation fails, a second sync with
      unchanged sources changes nothing, creates nothing and removes
      nothing; every candidate is counted as already present. */
  lemma SyncIdempotent(d: Listing, valid: set<string>, scope: Scope, isWindows: bool,
                       kind: EntryKind, ids: seq<string>)
    requires Convergent(d, valid, scope)
    requires Exists(kind)
    requires Elems(ids) == valid
    ensures var d1 := Synced(d, valid, scope, isWindows, NoFaults, kind);
      && Synced(d1, valid, scope, isWindows, NoFaults, kind) == d1
      && Run(Pass(d1, 0, 0), ids, {}, kind) == Pass(d1, 0, |ids|)
      && Removals(d1, d1.Keys, valid, scope, isWindows, {}) == {}
  {
    var d1 := Synced(d, valid, scope, isWindows, NoFaults, kind);
    AllValidOccupied(d, valid, scope, isWindows, kind);
    NothingLeftToRemove(d, valid, scope, isWindows, kind);
    CreatedIdle(d1, valid, kind);
    assert d1 - Removals(d1, d1.Keys, valid, scope, isWindows, {}) == d1;
    RunIdle(d1, ids, 0, 0, {}, kind);
  }

  /** Plugin convergence: when no link operation fails and no stale entry
      is a directory with contents, one sync leaves the plugin destination
      holding exactly the valid plugin names. */
  lemma PluginsConverge(d: Listing, market: map<string, Node>, isWindows: bool)
    requires forall n :: n in d && n !in ValidPluginIds(market) ==> !d[n].NonEmptyDir?
    ensures SyncedPlugins(d, market, Env(isWindows, NoFaults, NoFaults)).Keys == ValidPluginIds(market)
  {
    SyncConverges(d, ValidPluginIds(market), Everything, isWindows, DirLinkKind(isWindows));
  }

  /** Workflow convergence: under the same conditions, the bridge-owned
      entries of the workflow destination are exactly the valid workflow
      names after one sync. */
  lemma WorkflowsConverge(d: Listing, market: map<string, Node>, isWindows: bool)
    requires forall n :: n in d && StartsWith(n, OwnerPrefix) && n !in ValidWorkflowIds(market) ==> !d[n].NonEmptyDir?
    ensures forall n :: StartsWith(n, OwnerPrefix) ==>
              (n in SyncedWorkflows(d, market, Env(isWindows, NoFaults, NoFaults)) <==> n in ValidWorkflowIds(market))
  {
    SyncConverges(d, ValidWorkflowIds(market), OwnedOnly, isWindows, FileLinkKind(isWindows));
  }

  /** Whatever fails, a sync leaves every workflow entry without the
      bridge's prefix exactly as it was. */
  lemma ForeignWorkflowsUntouched(d: Listing, market: map<string, Node>, env: Env)
    ensures forall n :: n in d && !StartsWith(n, OwnerPrefix) ==>
              n in SyncedWorkflows(d, market, env) && SyncedWorkflows(d, market, env)[n] == d[n]
  {
    SyncedIsSafe(d, ValidWorkflowIds(market), OwnedOnly, env.isWindows, env.workflowFaults, FileLinkKind(env.isWindows));
  }

  /** Why convergence asks for no dangling junction at a valid name: the
      existence test does not see it, the create is refused because the
      name is taken, and the cleanup keeps it because the name is valid.
      Every sync leaves it as it was, and never counts it as present. */
  lemma DanglingJunctionPersists(d: Listing, valid: set<string>, scope: Scope, isWindows: bool,
                                 faults: Faults, kind: EntryKind, n: string)
    requires n in d && n in valid && d[n].DanglingJunction?
    ensures n in Synced(d, valid, scope, isWindows, faults, kind)
    ensures Synced(d, valid, scope, isWindows, faults, kind)[n].DanglingJunction?
    ensures !Occupied(Synced(d, valid, scope, isWindows, faults, kind), n)
    ensures !CreateSucceeds(Synced(d, valid, scope, isWindows, faults, kind), n, faults.createFails)
  {
    SyncedIsSafe(d, valid, scope, isWindows, faults, kind);
  }
}
