/** Resolving a plugin name given on the command line, possibly only part
    of one, against the entries of the bridged-plugins directory. */
module Resolver {
  import opened FileSystem

  /** What resolving a name gives: the entry found, or one of the two
      failures (which the command reports before exiting with status 1).
      An ambiguous name reports every entry it matches. The callers do not
      check that the plugins directory exists, and when it does not, the
      listing raises an error that nothing catches. */
  datatype Resolution =
    | Found(name: string)
    | NotFound
    | Ambiguous(matches: set<string>)
    | DirectoryMissing  // listing a plugins directory that does not exist raises

  /** A query that names an entry of the directory itself, as opposed to
      one that names the directory (`""`, `"."`), its parent (`".."`) or a
      path elsewhere (anything with a `/`). */
  predicate IsPlainName(query: string) {
    query != "" && query != "." && query != ".." && '/' !in query
  }

  /** `(bridge_plugins / query).exists()`. For a plain name this is the
      entry of that name, followed if it is a link; for any other query
      the joined path leads out of the listing, and `outside` says whether
      it exists. */
  predicate ExactExists(dest: Listing, query: string, outside: bool) {
    if IsPlainName(query) then query in dest && Exists(dest[query]) else outside
  }

  /** The entries whose name contains the query, dangling links included. */
  function Matches(dest: Listing, query: string): set<string> {
    set n | n in dest && IsInfix(query, n)
  }

  /** The candidates are the entries in which the query occurs at some
      position. */
  lemma MatchesAt(dest: Listing, query: string, n: string)
    ensures n in Matches(dest, query) <==>
              n in dest && exists i :: 0 <= i <= |n| - |query| && query <= n[i..]
  {
    IsInfixAt(query, n);
  }

  /** A set of one element has no other element. */
  lemma SingletonOnly(m: set<string>, x: string, y: string)
    requires |m| == 1 && x in m && y in m
    ensures x == y
  {
    var rest := m - {x};
    assert |rest| == 0;
    assert y !in rest;
  }

  /** The one element of a set of one element. */
  function OnlyElement(m: set<string>): (x: string)
    requires |m| == 1
    ensures m == {x}
  {
    var x :| x in m;
    forall y | y in m ensures y == x {
      SingletonOnly(m, x, y);
    }
    x
  }

  /** `resolve_plugin` (scripts/claude-bridge.py, lines 136-152), over an
      existing directory: an existing exact name wins; otherwise the query must
      be contained in exactly one entry name. */
  function Resolve(dest: Listing, query: string, outside: bool): (r: Resolution)
    ensures r.Found? ==> (r.name == query && ExactExists(dest, query, outside))
                         || (r.name in dest && IsInfix(query, r.name))
    ensures !r.DirectoryMissing?
  {
    if ExactExists(dest, query, outside) then Found(query)
    else
      var m := Matches(dest, query);
      if |m| == 1 then Found(OnlyElement(m))
      else if |m| > 1 then Ambiguous(m)
      else NotFound
  }

  /** `resolve_plugin` whatever the state of the plugins directory: `dir`
      is `None` when it does not exist. A plain name then has no exact
      hit, and listing the missing directory fails; only a query whose
      joined path leads to something that exists elsewhere is found. */
  function ResolveIn(dir: Option<Listing>, query: string, outside: bool): (r: Resolution)
    ensures dir.None? ==> (r.Found? <==> !IsPlainName(query) && outside)
    ensures dir.None? && !r.Found? ==> r.DirectoryMissing?
    ensures r.DirectoryMissing? <==> dir.None? && !(!IsPlainName(query) && outside)
    ensures dir.Some? ==> (r.Found? ==> ExactExists(dir.value, query, outside) || r.name in dir.value)
  {
    match dir
    case Some(d) => Resolve(d, query, outside)
    case None => if !IsPlainName(query) && outside then Found(query) else DirectoryMissing
  }

  /** An existing exact name is returned even when other entries contain
      it as a part of theirs. */
  lemma ExactWins(dest: Listing, query: string, outside: bool)
    requires IsPlainName(query) && query in dest && Exists(dest[query])
    ensures Resolve(dest, query, outside) == Found(query)
    ensures IsInfix(query, query) && query in Matches(dest, query)
  {
    IsInfixOfSelf(query);
  }

  /** Without an exact hit, a name resolves exactly when one entry contains
      it, and then to that entry. */
  lemma FoundUnique(dest: Listing, query: string, outside: bool, n: string)
    requires !ExactExists(dest, query, outside)
    ensures Resolve(dest, query, outside) == Found(n) <==> Matches(dest, query) == {n}
  {
  }

  /** A name is not found exactly when it is no exact hit and no entry
      contains it. */
  lemma NotFoundExactly(dest: Listing, query: string, outside: bool)
    ensures Resolve(dest, query, outside) == NotFound
            <==> !ExactExists(dest, query, outside) && forall n :: n in dest ==> !IsInfix(query, n)
  {
    var m := Matches(dest, query);
    assert forall n :: n in dest && IsInfix(query, n) ==> n in m;
    if !ExactExists(dest, query, outside) && m != {} {
      var x :| x in m;
      assert |m| >= 1;
    }
  }

  /** A name is ambiguous exactly when it is no exact hit and at least two
      entries contain it; the failure then names all of them. */
  lemma AmbiguousExactly(dest: Listing, query: string, outside: bool)
    ensures Resolve(dest, query, outside).Ambiguous?
            <==> !ExactExists(dest, query, outside) && |Matches(dest, query)| >= 2
    ensures Resolve(dest, query, outside).Ambiguous?
            ==> Resolve(dest, query, outside).matches == Matches(dest, query)
  {
  }

  /** The empty query and `"."` name the plugins directory itself, which
      exists whenever there is something to resolve against: the directory
      comes back rather than any of its entries. */
  lemma DirectoryItselfResolves(dest: Listing, query: string)
    requires query == "" || query == "."
    ensures Resolve(dest, query, true) == Found(query)
  {
  }

  /** The matches in a directory of three entries are those of the three
      names that contain the query. */
  lemma MatchesOfThree(a: string, b: string, c: string, ka: EntryKind, kb: EntryKind, kc: EntryKind, q: string)
    ensures Matches(map[a := ka, b := kb, c := kc], q)
            == (if IsInfix(q, a) then {a} else {}) + (if IsInfix(q, b) then {b} else {})
               + (if IsInfix(q, c) then {c} else {})
  {
  }

  /** The directory of the examples below: two plugin links, one name
      contained in the other, and a dangling link. */
  function ExampleDir(): Listing {
    map["m__foo" := DirSymlink, "m__foobar" := DirSymlink, "m__old" := DanglingSymlink]
  }

  /** The exact name `m__foo` wins over `m__foobar`, which contains it. */
  lemma ExampleExact()
    ensures Resolve(ExampleDir(), "m__foo", false) == Found("m__foo")
  {
    ExactWins(ExampleDir(), "m__foo", false);
  }

  /** The names of the example directory that contain `bar`. */
  lemma {:induction false} MatchesBar()
    ensures Matches(ExampleDir(), "bar") == {"m__foobar"}
  {
    assert IsInfix("bar", "m__foobar") by {
      assert "bar" <= "m__foobar"[6..];
      IsInfixAt("bar", "m__foobar");
    }
    NoFirstChar("bar", "m__foo");
    NoFirstChar("bar", "m__old");
    MatchesOfThree("m__foo", "m__foobar", "m__old", DirSymlink, DirSymlink, DanglingSymlink, "bar");
  }

  /** `bar` is contained in one name only, and resolves to it. */
  lemma {:induction false} ExampleUnique()
    ensures Resolve(ExampleDir(), "bar", false) == Found("m__foobar")
  {
    assert !ExactExists(ExampleDir(), "bar", false) by { assert "bar" !in ExampleDir(); }
    MatchesBar();
    FoundUnique(ExampleDir(), "bar", false, "m__foobar");
  }

  /** The names of the example directory that contain `foo`. */
  lemma {:induction false} MatchesFoo()
    ensures Matches(ExampleDir(), "foo") == {"m__foo", "m__foobar"}
  {
    assert IsInfix("foo", "m__foo") by {
      assert "foo" <= "m__foo"[3..];
      IsInfixAt("foo", "m__foo");
    }
    assert IsInfix("foo", "m__foobar") by {
      assert "foo" <= "m__foobar"[3..];
      IsInfixAt("foo", "m__foobar");
    }
    NoFirstChar("foo", "m__old");
    MatchesOfThree("m__foo", "m__foobar", "m__old", DirSymlink, DirSymlink, DanglingSymlink, "foo");
  }

  /** `foo` is contained in two names, and the failure names both. */
  lemma {:induction false} ExampleAmbiguous()
    ensures Resolve(ExampleDir(), "foo", false) == Ambiguous({"m__foo", "m__foobar"})
  {
    assert !ExactExists(ExampleDir(), "foo", false) by { assert "foo" !in ExampleDir(); }
    MatchesFoo();
    assert |{"m__foo", "m__foobar"}| == 2;
    AmbiguousExactly(ExampleDir(), "foo", false);
  }

  /** The names of the example directory that contain `m__old`. */
  lemma {:induction false} MatchesOld()
    ensures Matches(ExampleDir(), "m__old") == {"m__old"}
  {
    IsInfixOfSelf("m__old");
    NoOld("m__foo");
    NoOld("m__foobar");
    MatchesOfThree("m__foo", "m__foobar", "m__old", DirSymlink, DirSymlink, DanglingSymlink, "m__old");
  }

  /** A dangling link is no exact hit, but its name still contains the
      query: `m__old` resolves through the substring search. */
  lemma {:induction false} ExampleDangling()
    ensures Resolve(ExampleDir(), "m__old", false) == Found("m__old")
  {
    assert !ExactExists(ExampleDir(), "m__old", false) by { assert !Exists(ExampleDir()["m__old"]); }
    MatchesOld();
    FoundUnique(ExampleDir(), "m__old", false, "m__old");
  }

  /** No name of the example directory contains `zzz`. */
  lemma {:induction false} MatchesNone()
    ensures Matches(ExampleDir(), "zzz") == {}
  {
    NoFirstChar("zzz", "m__foo");
    NoFirstChar("zzz", "m__foobar");
    NoFirstChar("zzz", "m__old");
    MatchesOfThree("m__foo", "m__foobar", "m__old", DirSymlink, DirSymlink, DanglingSymlink, "zzz");
  }

  /** A name that no entry contains is not found. */
  lemma {:induction false} ExampleNotFound()
    ensures Resolve(ExampleDir(), "zzz", false) == NotFound
  {
    assert !ExactExists(ExampleDir(), "zzz", false) by { assert "zzz" !in ExampleDir(); }
    MatchesNone();
  }

  /** `q` is not contained in `s` when no character of `s` is `q`'s first. */
  lemma {:induction false} NoFirstChar(q: string, s: string)
    requires q != [] && q[0] !in s
    ensures !IsInfix(q, s)
    decreases |s|
  {
    if |s| > 0 {
      assert s[0] in s;
      assert !(q <= s);
      assert forall c :: c in s[1..] ==> c in s;
      NoFirstChar(q, s[1..]);
    }
  }

  /** Neither plugin name of the examples contains `m__old`: they differ
      from it at the fourth character, and hold no other `m`. */
  lemma NoOld(s: string)
    requires s == "m__foo" || s == "m__foobar"
    ensures !IsInfix("m__old", s)
  {
    assert s[3] != "m__old"[3];
    NoFirstChar("m__old", s[1..]);
  }
}
