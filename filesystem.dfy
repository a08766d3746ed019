/** The abstract filesystem the bridge reads from and writes to.

    The marketplace side is a finite tree of directory entries. The two
    destination directories (bridged plugins, global workflows) are flat maps
    from entry name to the kind of entry found there, which is all the
    reconciler ever looks at.
 */
module FileSystem {

  datatype Option<T> = None | Some(value: T)

  /** An entry of the marketplace tree, as pathlib sees it after following
      symbolic links: a file, a directory with its entries, or a dangling
      symbolic link (for which `exists()` and `is_dir()` are both false). */
  datatype Node = File | Broken | Dir(entries: map<string, Node>)

  /** `Path.exists()` on a marketplace entry. */
  predicate NodeExists(n: Node) {
    !n.Broken?
  }

  /** An entry of a destination directory. A symbolic link is told apart by
      what it resolves to; a Windows directory junction is a link too, but
      `Path.is_symlink()` is false for it. A hard link is a `RegularFile`. */
  datatype EntryKind =
    | DirSymlink        // symbolic link to an existing directory
    | FileSymlink       // symbolic link to an existing file
    | DanglingSymlink   // symbolic link whose target is gone
    | Junction          // directory junction to an existing directory
    | DanglingJunction  // directory junction whose target is gone
    | RegularFile       // regular file, including a hard link
    | EmptyDir          // real, empty directory
    | NonEmptyDir       // real directory with contents

  type Listing = map<string, EntryKind>

  /** `Path.exists()`: follows links, so a dangling one does not exist. */
  predicate Exists(k: EntryKind) {
    !(k.DanglingSymlink? || k.DanglingJunction?)
  }

  /** `Path.is_symlink()`: true for symbolic links, dangling or not, and
      false for junctions. */
  predicate IsSymlink(k: EntryKind) {
    k.DirSymlink? || k.FileSymlink? || k.DanglingSymlink?
  }

  /** `Path.is_dir()`: follows links. */
  predicate IsDir(k: EntryKind) {
    k.DirSymlink? || k.Junction? || k.EmptyDir? || k.NonEmptyDir?
  }

  /** `Path.is_file()`: follows links. */
  predicate IsFile(k: EntryKind) {
    k.FileSymlink? || k.RegularFile?
  }

  /** A real directory, as opposed to a link that resolves to one. */
  predicate IsRealDir(k: EntryKind) {
    k.EmptyDir? || k.NonEmptyDir?
  }

  /** The test the reconciler applies before creating a link:
      `dest.exists() or dest.is_symlink()`. */
  predicate Occupied(d: Listing, name: string) {
    name in d && (Exists(d[name]) || IsSymlink(d[name]))
  }

  /** The only entry that `Occupied` does not see is a dangling junction:
      any other entry with the name counts as already present. */
  lemma OccupiedUnlessDanglingJunction(d: Listing, name: string)
    ensures Occupied(d, name) <==> name in d && !d[name].DanglingJunction?
  {
  }

  /** `s.startswith(prefix)` */
  predicate StartsWith(s: string, prefix: string) {
    prefix <= s
  }

  /** `s.endswith(suffix)` */
  predicate EndsWith(s: string, suffix: string) {
    |suffix| <= |s| && s[|s| - |suffix|..] == suffix
  }

  /** `q in s` on strings: `q` occurs in `s` as a contiguous substring. */
  predicate IsInfix(q: string, s: string)
    decreases |s|
  {
    q <= s || (|s| > 0 && IsInfix(q, s[1..]))
  }

  /** `IsInfix` agrees with the positional reading of a substring. */
  lemma {:induction false} IsInfixAt(q: string, s: string)
    ensures IsInfix(q, s) <==> exists i :: 0 <= i <= |s| - |q| && q <= s[i..]
    decreases |s|
  {
    if IsInfix(q, s) {
      if q <= s {
        assert s[0..] == s;
      } else {
        IsInfixAt(q, s[1..]);
        var i :| 0 <= i <= |s[1..]| - |q| && q <= s[1..][i..];
        assert s[1..][i..] == s[i + 1..];
      }
    }
    if exists i :: 0 <= i <= |s| - |q| && q <= s[i..] {
      var i :| 0 <= i <= |s| - |q| && q <= s[i..];
      if i > 0 {
        assert s[1..][i - 1..] == s[i..];
        IsInfixAt(q, s[1..]);
      }
    }
  }

  /** A string never contains one longer than itself. */
  lemma {:induction false} NoInfixLongerThan(q: string, s: string)
    requires |s| < |q|
    ensures !IsInfix(q, s)
    decreases |s|
  {
    if |s| > 0 {
      NoInfixLongerThan(q, s[1..]);
    }
  }

  /** Every string contains itself. */
  lemma IsInfixOfSelf(s: string)
    ensures IsInfix(s, s)
  {
  }

  /** Elements of a sequence, as a set. */
  function Elems<T>(s: seq<T>): set<T>
  {
    set x | x in s
  }

  /** The elements of a non-empty sequence are those of all but its last
      entry, and that entry. */
  lemma ElemsOfSnoc<T>(s: seq<T>)
    requires s != []
    ensures Elems(s) == Elems(s[..|s| - 1]) + {s[|s| - 1]}
  {
    assert s == s[..|s| - 1] + [s[|s| - 1]];
    forall x | x in s ensures x in s[..|s| - 1] || x == s[|s| - 1] {
      var i :| 0 <= i < |s| && s[i] == x;
      if i < |s| - 1 {
        assert s[..|s| - 1][i] == x;
      }
    }
  }

  /** A loop over a set moves one element `x` from the elements still to
      visit to those already visited. */
  lemma VisitOne<T>(all: set<T>, todo: set<T>, done: set<T>, x: T)
    requires todo <= all && done == all - todo && x in todo
    ensures todo - {x} <= all && done + {x} == all - (todo - {x})
  {
  }

  /** A set `v` that is `e0` plus the part `a` found so far, once grown by
      `x`, is `e0` plus the part `a2` that `a` grows to by `x`. */
  lemma UnionStep<T>(e0: set<T>, a: set<T>, a2: set<T>, x: set<T>, v: set<T>, n: set<T>)
    requires v == e0 + a && a2 == a + x && n == v + x
    ensures n == e0 + a2
  {
  }

  /** A set `v` equal to the part `a` found so far, once grown by `x`, is
      the part `a2` that `a` grows to by `x`. */
  lemma GrowStep<T>(a: set<T>, a2: set<T>, x: set<T>, v: set<T>, n: set<T>)
    requires v == a && a2 == a + x && n == v + x
    ensures n == a2
  {
  }

  /** A sequence has no more distinct elements than entries. */
  lemma {:induction false} ElemsBound<T>(s: seq<T>)
    ensures |Elems(s)| <= |s|
    decreases |s|
  {
    if s != [] {
      ElemsOfSnoc(s);
      ElemsBound(s[..|s| - 1]);
    }
  }

  /** A map that is one-to-one on `s` and sends it onto `t` makes `t` as
      large as `s`. */
  lemma {:induction false} InjectiveImageCard<A, B>(s: set<A>, t: set<B>, f: A -> B)
    requires forall x, y :: x in s && y in s && f(x) == f(y) ==> x == y
    requires forall x :: x in s ==> f(x) in t
    requires forall y :: y in t ==> exists x :: x in s && f(x) == y
    ensures |t| == |s|
    decreases s
  {
    if s == {} {
      assert forall y :: y !in t;
      assert t == {};
    } else {
      var x :| x in s;
      var s', t' := s - {x}, t - {f(x)};
      forall y | y in t' ensures exists x' :: x' in s' && f(x') == y {
        var x' :| x' in s && f(x') == y;
        assert x' != x;
      }
      InjectiveImageCard(s', t', f);
    }
  }
}
