/**
 * The plugin-loading outcomes the initializer's tests assert, stated over the
 * locator: the plugin fixtures, the load orders expected of them, and the
 * failures for plugins no search path provides.
 */
module Scenarios {
  import opened Wrappers
  import opened Plugins

  // ---------------------------------------------------------------------------
  // Plugin loading
  // ---------------------------------------------------------------------------

  function S(name: string): Entry { Named(Symbol(name)) }
  function T(name: string): Entry { Named(Text(name)) }

  /** The fixture names one by one. */
  const A: string := "a"
  const ActsAsChunkyBacon: string := "acts_as_chunky_bacon"
  const Engine: string := "engine"
  const Gemlike: string := "gemlike"
  const PluginWithNoLibDir: string := "plugin_with_no_lib_dir"
  const Stubby: string := "stubby"

  /** The plugin fixtures, in name order: the order discovery gives them. */
  const Fixtures: seq<string> := [A, ActsAsChunkyBacon, Engine, Gemlike, PluginWithNoLibDir, Stubby]

  /** The fixture directories as a walk of the fixture tree may list them:
    * `default/stubby`, `default/acts/acts_as_chunky_bacon`,
    * `engines/engine`, then the other three. */
  const FixtureLayout: seq<string> := [Stubby, ActsAsChunkyBacon, Engine, A, Gemlike, PluginWithNoLibDir]

  /** Six pairwise different names. */
  predicate Distinct6(a: string, b: string, c: string, d: string, e: string, f: string) {
    a != b && a != c && a != d && a != e && a != f &&
    b != c && b != d && b != e && b != f &&
    c != d && c != e && c != f &&
    d != e && d != f &&
    e != f
  }

  lemma FixtureNamesDistinct()
    ensures Distinct6(A, ActsAsChunkyBacon, Engine, Gemlike, PluginWithNoLibDir, Stubby)
  {
    var a, acts, engine, gemlike, nolib, stubby := A, ActsAsChunkyBacon, Engine, Gemlike, PluginWithNoLibDir, Stubby;
    assert |a| == 1 && |acts| == 20 && |engine| == 6 && |gemlike| == 7 && |nolib| == 22 && |stubby| == 6;
    assert engine[0] != stubby[0];
  }

  lemma {:induction false} Distinct6NoDuplicates(a: string, b: string, c: string, d: string, e: string, f: string)
    requires Distinct6(a, b, c, d, e, f)
    ensures NoDuplicates([a, b, c, d, e, f])
  {
  }

  /** `:all` over six discovered plugins when the second and the last are
    * named. */
  lemma {:induction false} SixUnlisted(a: string, b: string, c: string, d: string, e: string, f: string, named: set<string>)
    requires b in named && f in named
    requires a !in named && c !in named && d !in named && e !in named
    ensures Unlisted([a, b, c, d, e, f], named) == [a, c, d, e]
  {
    assert Unlisted([f], named) == [] by {
      assert [f][1..] == [];
    }
    assert Unlisted([e, f], named) == [e] by {
      assert [e, f][1..] == [f];
    }
    assert Unlisted([d, e, f], named) == [d, e] by {
      assert [d, e, f][1..] == [e, f];
    }
    assert Unlisted([c, d, e, f], named) == [c, d, e] by {
      assert [c, d, e, f][1..] == [d, e, f];
    }
    assert Unlisted([b, c, d, e, f], named) == [c, d, e] by {
      assert [b, c, d, e, f][1..] == [c, d, e, f];
    }
    assert [a, b, c, d, e, f][1..] == [b, c, d, e, f];
  }

  /** The names a selection list of only `f`, `b` and wildcards mentions. */
  lemma {:induction false} NamedSecondAndLast(sel: seq<Entry>, a: string, b: string, c: string, d: string, e: string, f: string)
    requires Distinct6(a, b, c, d, e, f)
    requires forall i :: 0 <= i < |sel| && sel[i].Named? ==> sel[i].plugin.name == f || sel[i].plugin.name == b
    requires S(f) in sel && S(b) in sel
    ensures b in NamedIn(sel) && f in NamedIn(sel)
    ensures a !in NamedIn(sel) && c !in NamedIn(sel) && d !in NamedIn(sel) && e !in NamedIn(sel)
  {
    var i :| 0 <= i < |sel| && sel[i] == S(f);
    var j :| 0 <= j < |sel| && sel[j] == S(b);
  }

  /** An empty selection list loads no plugin. */
  lemma EmptyListLoadsNothing()
    ensures Locate(Fixtures, Some([])) == Located([], [])
  {
    ExplicitListLoadsExactlyThatList(Fixtures, []);
  }

  lemma {:induction false} TwoListedInOrder(discovered: seq<string>, x: string, y: string)
    requires x in discovered && y in discovered && x != y
    ensures Locate(discovered, Some([S(x), S(y)])) == Located([x, y], [])
  {
    var sel := [S(x), S(y)];
    assert Names(sel) == [x, y];
    ExplicitListLoadsExactlyThatList(discovered, sel);
  }

  /** `[:plugin_with_no_lib_dir, :acts_as_chunky_bacon]` loads exactly those
    * two, in that order. */
  lemma OnlyTheListedPluginsInListedOrder()
    ensures Locate(Fixtures, Some([S(PluginWithNoLibDir), S(ActsAsChunkyBacon)])) ==
      Located([PluginWithNoLibDir, ActsAsChunkyBacon], [])
  {
    FixtureNamesDistinct();
    TwoListedInOrder(Fixtures, PluginWithNoLibDir, ActsAsChunkyBacon);
  }

  /** The fixture names are in name order. */
  lemma FixturesInNameOrder()
    ensures InNameOrder(Fixtures)
  {
    assert NameBefore(A, ActsAsChunkyBacon) by {
      assert A[1..] == [] && |ActsAsChunkyBacon[1..]| > 0;
    }
    assert NameBefore(ActsAsChunkyBacon, Engine) && NameBefore(Engine, Gemlike);
    assert NameBefore(Gemlike, PluginWithNoLibDir) && NameBefore(PluginWithNoLibDir, Stubby);
    NeighboursInNameOrder(Fixtures);
  }

  /** One search path holding the fixture directories, listed in any order
    * and even with repeats, discovers the fixtures in name order. */
  lemma FixtureListingDiscoversFixtures(listing: seq<string>)
    requires forall x :: x in listing <==> x in Fixtures
    ensures Discover([listing]) == Fixtures
  {
    assert [listing][1..] == [];
    assert Flatten([listing]) == listing + Flatten([]);
    assert listing + [] == listing;
    FixturesInNameOrder();
    InNameOrderUnique(Discover([listing]), Fixtures);
  }

  /** The fixture tree as laid out on disk is discovered in name order. */
  lemma FixtureLayoutDiscoveredInNameOrder()
    ensures Discover([FixtureLayout]) == Fixtures
  {
    FixtureListingDiscoversFixtures(FixtureLayout);
  }

  /** Discovery order is name order, not listing order: `z` listed on the
    * first path and `a` on the second are discovered as `a`, `z`. */
  lemma NameOrderNotListingOrder()
    ensures Discover([["z"], ["a"]]) == ["a", "z"]
  {
    var listings: seq<seq<string>> := [["z"], ["a"]];
    assert listings[1..] == [["a"]] && listings[1..][1..] == [];
    assert Flatten(listings) == ["z", "a"];
    assert NameBefore("a", "z");
    NeighboursInNameOrder(["a", "z"]);
    InNameOrderUnique(Discover(listings), ["a", "z"]);
  }

  /** With the list untouched every fixture is loaded, in name order,
    * whatever order the fixture directories are listed in. */
  lemma UntouchedListLoadsAllInNameOrder(listing: seq<string>)
    requires forall x :: x in listing <==> x in Fixtures
    ensures Locate(Discover([listing]), None) == Located([A, ActsAsChunkyBacon, Engine, Gemlike, PluginWithNoLibDir, Stubby], [])
  {
    FixtureListingDiscoversFixtures(listing);
    FixtureNamesDistinct();
    Distinct6NoDuplicates(A, ActsAsChunkyBacon, Engine, Gemlike, PluginWithNoLibDir, Stubby);
    DedupSpec(Fixtures);
  }

  lemma UnlistedAfterTwo(a: string, b: string, c: string, d: string, e: string, f: string)
    requires Distinct6(a, b, c, d, e, f)
    ensures Unlisted([a, b, c, d, e, f], NamedIn([S(f), S(b), All])) == [a, c, d, e]
  {
    var sel: seq<Entry> := [S(f), S(b), All];
    NamedSecondAndLast(sel, a, b, c, d, e, f);
    SixUnlisted(a, b, c, d, e, f, NamedIn(sel));
  }

  /** `[x, y, :all]` over distinct discovered names: the two, then the rest. */
  lemma TwoBeforeAll(discovered: seq<string>, x: string, y: string)
    requires NoDuplicates(discovered) && x in discovered && y in discovered && x != y
    ensures Locate(discovered, Some([S(x), S(y), All])) ==
      Located([x, y] + Unlisted(discovered, NamedIn([S(x), S(y), All])), [])
  {
    var before: seq<Entry>, after: seq<Entry> := [S(x), S(y)], [];
    assert before + [All] + after == [S(x), S(y), All];
    assert Names(before) == [x, y] && Names(after) == [];
    assert Names(before) + Names(after) == [x, y];
    AllExpandsInPlace(discovered, before, after);
  }

  lemma {:induction false} AllAfterTwo(a: string, b: string, c: string, d: string, e: string, f: string)
    requires Distinct6(a, b, c, d, e, f)
    ensures Locate([a, b, c, d, e, f], Some([S(f), S(b), All])) == Located([f, b, a, c, d, e], [])
  {
    UnlistedAfterTwo(a, b, c, d, e, f);
    Distinct6NoDuplicates(a, b, c, d, e, f);
    TwoBeforeAll([a, b, c, d, e, f], f, b);
  }

  lemma UnlistedBetweenTwo(a: string, b: string, c: string, d: string, e: string, f: string)
    requires Distinct6(a, b, c, d, e, f)
    ensures Unlisted([a, b, c, d, e, f], NamedIn([S(f), All, S(b)])) == [a, c, d, e]
  {
    var sel: seq<Entry> := [S(f), All, S(b)];
    NamedSecondAndLast(sel, a, b, c, d, e, f);
    SixUnlisted(a, b, c, d, e, f, NamedIn(sel));
  }

  /** `[x, :all, y]` over distinct discovered names: `x`, the rest, then `y`. */
  lemma AllBetween(discovered: seq<string>, x: string, y: string)
    requires NoDuplicates(discovered) && x in discovered && y in discovered && x != y
    ensures Locate(discovered, Some([S(x), All, S(y)])) ==
      Located([x] + Unlisted(discovered, NamedIn([S(x), All, S(y)])) + [y], [])
  {
    var before: seq<Entry>, after: seq<Entry> := [S(x)], [S(y)];
    assert before + [All] + after == [S(x), All, S(y)];
    assert Names(before) == [x] && Names(after) == [y];
    assert Names(before) + Names(after) == [x, y];
    AllExpandsInPlace(discovered, before, after);
  }

  lemma {:induction false} AllBetweenTwo(a: string, b: string, c: string, d: string, e: string, f: string)
    requires Distinct6(a, b, c, d, e, f)
    ensures Locate([a, b, c, d, e, f], Some([S(f), All, S(b)])) == Located([f, a, c, d, e, b], [])
  {
    UnlistedBetweenTwo(a, b, c, d, e, f);
    Distinct6NoDuplicates(a, b, c, d, e, f);
    AllBetween([a, b, c, d, e, f], f, b);
  }

  /** `[:stubby, :acts_as_chunky_bacon, :all]`: the named two first, then the
    * remaining fixtures in discovery order. */
  lemma AllAfterNamedPlugins()
    ensures Locate(Fixtures, Some([S(Stubby), S(ActsAsChunkyBacon), All])) ==
      Located([Stubby, ActsAsChunkyBacon, A, Engine, Gemlike, PluginWithNoLibDir], [])
  {
    FixtureNamesDistinct();
    AllAfterTwo(A, ActsAsChunkyBacon, Engine, Gemlike, PluginWithNoLibDir, Stubby);
  }

  /** `[:stubby, :all, :acts_as_chunky_bacon]`: `:all` does not repeat the
    * plugin named after it, which keeps its listed place at the end. */
  lemma AllBetweenNamedPlugins()
    ensures Locate(Fixtures, Some([S(Stubby), All, S(ActsAsChunkyBacon)])) ==
      Located([Stubby, A, Engine, Gemlike, PluginWithNoLibDir, ActsAsChunkyBacon], [])
  {
    FixtureNamesDistinct();
    AllBetweenTwo(A, ActsAsChunkyBacon, Engine, Gemlike, PluginWithNoLibDir, Stubby);
  }

  lemma {:induction false} FourListedInOrder(discovered: seq<string>, w: string, x: string, y: string, z: string)
    requires w in discovered && x in discovered && y in discovered && z in discovered
    requires NoDuplicates([w, x, y, z])
    ensures Locate(discovered, Some([T(w), T(x), S(y), S(z)])) == Located([w, x, y, z], [])
  {
    var sel := [T(w), T(x), S(y), S(z)];
    assert Names(sel) == [w, x, y, z];
    ExplicitListLoadsExactlyThatList(discovered, sel);
  }

  /** `['stubby', 'acts_as_chunky_bacon', :a, :plugin_with_no_lib_dir]`:
    * strings and symbols alike, in listed order. */
  lemma StringAndSymbolNamesLoadInListedOrder()
    ensures Locate(Fixtures, Some([T(Stubby), T(ActsAsChunkyBacon), S(A), S(PluginWithNoLibDir)])) ==
      Located([Stubby, ActsAsChunkyBacon, A, PluginWithNoLibDir], [])
  {
    FixtureNamesDistinct();
    FourListedInOrder(Fixtures, Stubby, ActsAsChunkyBacon, A, PluginWithNoLibDir);
  }

  /** The names of the unknown plugins the tests select. */
  const ActsAsANonExistantPlugin: string := "acts_as_a_non_existant_plugin"
  const NonExistantPlugin1: string := "non_existant_plugin1"
  const NonExistantPlugin2: string := "non_existant_plugin2"

  lemma UnknownNamesNotFixtures()
    ensures ActsAsANonExistantPlugin !in Fixtures
    ensures NonExistantPlugin1 !in Fixtures && NonExistantPlugin2 !in Fixtures
    ensures NonExistantPlugin1 != NonExistantPlugin2
  {
    var unknown, m1, m2, acts := ActsAsANonExistantPlugin, NonExistantPlugin1, NonExistantPlugin2, ActsAsChunkyBacon;
    var a, engine, gemlike, nolib, stubby := A, Engine, Gemlike, PluginWithNoLibDir, Stubby;
    assert |a| == 1 && |acts| == 20 && |engine| == 6 && |gemlike| == 7 && |nolib| == 22 && |stubby| == 6;
    assert |unknown| == 29 && |m1| == 20 && |m2| == 20;
    assert m1[0] != acts[0] && m2[0] != acts[0] && m1[19] != m2[19];
  }

  lemma {:induction false} SecondMissingFails(discovered: seq<string>, x: string, y: string)
    requires y !in discovered
    ensures Locate(discovered, Some([S(x), S(y)])).Failed()
  {
    var sel := [S(x), S(y)];
    ValidNamesStayLoaded(discovered, sel);
    assert sel[1].plugin.name !in discovered;
  }

  /** Selecting a plugin no search path provides makes loading fail. */
  lemma UnknownPluginFailsToLoad()
    ensures Locate(Fixtures, Some([S(Stubby), S(ActsAsANonExistantPlugin)])).Failed()
  {
    UnknownNamesNotFixtures();
    SecondMissingFails(Fixtures, Stubby, ActsAsANonExistantPlugin);
  }

  lemma {:induction false} TwoFoundTwoMissing(discovered: seq<string>, x: string, y: string, m1: string, m2: string)
    requires x in discovered && y in discovered && x != y
    requires m1 !in discovered && m2 !in discovered
    ensures var r := Locate(discovered, Some([S(x), S(y), S(m1), S(m2)]));
      r.loaded == [x, y] && r.missing == [Symbol(m1), Symbol(m2)]
  {
    var sel := [S(x), S(y), S(m1), S(m2)];
    ValidNamesStayLoaded(discovered, sel);
    FoundTwoOfFour(discovered, x, y, m1, m2);
    DedupPair(x, y);
    MissingTwoOfFour(discovered, x, y, m1, m2);
  }

  /** Of two discovered and two undiscovered names, the last two are missing. */
  lemma MissingTwoOfFour(discovered: seq<string>, x: string, y: string, m1: string, m2: string)
    requires x in discovered && y in discovered
    requires m1 !in discovered && m2 !in discovered
    ensures Missing(discovered, [S(x), S(y), S(m1), S(m2)]) == [Symbol(m1), Symbol(m2)]
  {
    var sel := [S(x), S(y), S(m1), S(m2)];
    assert sel[1..] == [S(y), S(m1), S(m2)];
    assert sel[2..] == [S(m1), S(m2)];
    assert sel[3..] == [S(m2)];
    assert Missing(discovered, sel[3..]) == [Symbol(m2)] by { assert sel[3..][1..] == []; }
    assert Missing(discovered, sel[2..]) == [Symbol(m1), Symbol(m2)] by { assert sel[2..][1..] == sel[3..]; }
    assert Missing(discovered, sel[1..]) == [Symbol(m1), Symbol(m2)] by { assert sel[1..][1..] == sel[2..]; }
  }

  /** Of two discovered and two undiscovered names, the first two are found. */
  lemma FoundTwoOfFour(discovered: seq<string>, x: string, y: string, m1: string, m2: string)
    requires x in discovered && y in discovered
    requires m1 !in discovered && m2 !in discovered
    ensures Found(discovered, [S(x), S(y), S(m1), S(m2)]) == [x, y]
  {
    var sel := [S(x), S(y), S(m1), S(m2)];
    assert sel[1..] == [S(y), S(m1), S(m2)];
    assert sel[2..] == [S(m1), S(m2)];
    assert sel[3..] == [S(m2)];
    assert Found(discovered, sel[3..]) == [] by { assert sel[3..][1..] == []; }
    assert Found(discovered, sel[2..]) == [] by { assert sel[2..][1..] == sel[3..]; }
    assert Found(discovered, sel[1..]) == [y] by { assert sel[1..][1..] == sel[2..]; }
    assert Found(discovered, sel) == [x] + [y];
  }

  /** Two distinct names are kept as they are. */
  lemma DedupPair(x: string, y: string)
    requires x != y
    ensures Dedup([x, y]) == [x, y]
  {
    assert Dedup([x]) == [x] by { assert [x][..0] == []; }
    assert [x, y][..1] == [x];
  }

  /** `[:stubby, :acts_as_chunky_bacon, :non_existant_plugin1,
    * :non_existant_plugin2]`: the two valid plugins stay loaded, in order,
    * and the error names exactly the two missing ones. */
  lemma LoadErrorNamesTheMissingPluginsOnly()
    ensures var r := Locate(Fixtures, Some([S(Stubby), S(ActsAsChunkyBacon), S(NonExistantPlugin1), S(NonExistantPlugin2)]));
      r.Failed() &&
      r.loaded == [Stubby, ActsAsChunkyBacon] &&
      r.missing == [Symbol(NonExistantPlugin1), Symbol(NonExistantPlugin2)]
  {
    FixtureNamesDistinct();
    UnknownNamesNotFixtures();
    TwoFoundTwoMissing(Fixtures, Stubby, ActsAsChunkyBacon, NonExistantPlugin1, NonExistantPlugin2);
  }
}
