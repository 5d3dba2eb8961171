/**
 * The plugin locator: from the plugins discovered on the plugin search paths
 * and the optional `config.plugins` selection list to the ordered
 * `loaded_plugins`, or to a load error naming every selected plugin that was
 * not found.
 */
module Plugins {
  import opened Wrappers

  /** A plugin name as written in `config.plugins`: a Ruby symbol or a string. */
  datatype PluginName = Symbol(name: string) | Text(name: string)

  /** One entry of the selection list: a named plugin, or the `:all` wildcard. */
  datatype Entry = Named(plugin: PluginName) | All

  /** What loading the plugins leaves behind: the plugins loaded, in load
    * order, and the selected names that no search path provides. */
  datatype Located = Located(loaded: seq<string>, missing: seq<PluginName>) {
    /** Loading raises a LoadError exactly when some selected name is missing. */
    predicate Failed() { missing != [] }
  }

  predicate NoDuplicates(s: seq<string>) {
    forall i, j :: 0 <= i < j < |s| ==> s[i] != s[j]
  }

  // ---------------------------------------------------------------------------
  // First occurrences, and the listings of several search paths
  // ---------------------------------------------------------------------------

  /** Keeps the first occurrence of every name, in order. */
  function Dedup(s: seq<string>): seq<string>
    decreases |s|
  {
    if |s| == 0 then []
    else
      var p := Dedup(s[..|s| - 1]);
      if s[|s| - 1] in p then p else p + [s[|s| - 1]]
  }

  /** The position where a name first occurs. */
  function FirstIndex(s: seq<string>, x: string): (r: nat)
    requires x in s
    ensures r < |s| && s[r] == x
    ensures forall k :: 0 <= k < r ==> s[k] != x
    decreases |s|
  {
    if s[0] == x then 0 else 1 + FirstIndex(s[1..], x)
  }

  /** A name's first position does not move when something is appended. */
  lemma FirstIndexAppend(s: seq<string>, y: string, x: string)
    requires x in s
    ensures FirstIndex(s + [y], x) == FirstIndex(s, x)
  {
    var q := FirstIndex(s, x);
    assert (s + [y])[q] == x;
  }

  /** Deduplication keeps every name, once, and leaves a list without
    * repeats as it is. */
  lemma {:induction false} DedupSpec(s: seq<string>)
    ensures NoDuplicates(Dedup(s))
    ensures forall x :: x in Dedup(s) <==> x in s
    ensures NoDuplicates(s) ==> Dedup(s) == s
    decreases |s|
  {
    if |s| > 0 {
      var init := s[..|s| - 1];
      DedupSpec(init);
      assert s == init + [s[|s| - 1]];
      assert NoDuplicates(s) ==> NoDuplicates(init) && s[|s| - 1] !in init;
    }
  }

  /** Deduplication keeps each name at its first place: the names come in
    * the order of their first occurrences. */
  lemma {:induction false} DedupKeepsFirstOrder(s: seq<string>)
    ensures forall x :: x in Dedup(s) ==> x in s
    ensures forall i, j :: 0 <= i < j < |Dedup(s)| ==> FirstIndex(s, Dedup(s)[i]) < FirstIndex(s, Dedup(s)[j])
    decreases |s|
  {
    DedupSpec(s);
    if |s| > 0 {
      DedupKeepsFirstOrder(s[..|s| - 1]);
      DedupSpec(s[..|s| - 1]);
      DedupOrderStep(s, s[..|s| - 1]);
    }
  }

  /** One more name keeps the deduplicated names ordered by first occurrence. */
  lemma DedupOrderStep(s: seq<string>, init: seq<string>)
    requires |s| > 0 && init == s[..|s| - 1]
    requires forall x :: x in Dedup(init) <==> x in init
    requires forall i, j :: 0 <= i < j < |Dedup(init)| ==> FirstIndex(init, Dedup(init)[i]) < FirstIndex(init, Dedup(init)[j])
    requires forall x :: x in Dedup(s) ==> x in s
    ensures forall i, j :: 0 <= i < j < |Dedup(s)| ==> FirstIndex(s, Dedup(s)[i]) < FirstIndex(s, Dedup(s)[j])
  {
    var last := s[|s| - 1];
    var p := Dedup(init);
    assert s == init + [last];
    forall x | x in init ensures FirstIndex(s, x) == FirstIndex(init, x) {
      FirstIndexAppend(init, last, x);
    }
    if last !in p {
      var d := p + [last];
      assert Dedup(s) == d;
      forall i, j | 0 <= i < j < |d| ensures FirstIndex(s, d[i]) < FirstIndex(s, d[j]) {
        assert d[i] == p[i] && d[i] in p;
        if j < |p| {
          assert d[j] == p[j] && d[j] in p;
        }
      }
    }
  }

  /** The directory listings of the search paths, one after the other. */
  function Flatten(listings: seq<seq<string>>): (r: seq<string>)
    ensures forall x :: x in r <==> exists i :: 0 <= i < |listings| && x in listings[i]
    decreases |listings|
  {
    if |listings| == 0 then []
    else
      var rest := Flatten(listings[1..]);
      assert forall x :: (exists i :: 1 <= i < |listings| && x in listings[i]) ==> x in rest by {
        forall x, i | 1 <= i < |listings| && x in listings[i] ensures x in rest {
          assert x in listings[1..][i - 1];
        }
      }
      listings[0] + rest
  }

  // ---------------------------------------------------------------------------
  // Name order
  // ---------------------------------------------------------------------------

  /** Ruby's `String#<=>` on plugin names: `a` sorts strictly before `b`
    * (character by character; a proper prefix sorts first). */
  predicate NameBefore(a: string, b: string)
    decreases |a|
  {
    |b| > 0 && (|a| == 0 || a[0] < b[0] || (a[0] == b[0] && NameBefore(a[1..], b[1..])))
  }

  lemma {:induction false} NameBeforeIrreflexive(a: string)
    ensures !NameBefore(a, a)
    decreases |a|
  {
    if |a| > 0 {
      NameBeforeIrreflexive(a[1..]);
    }
  }

  lemma {:induction false} NameBeforeTransitive(a: string, b: string, c: string)
    requires NameBefore(a, b) && NameBefore(b, c)
    ensures NameBefore(a, c)
    decreases |a|
  {
    if |a| > 0 && a[0] == b[0] && b[0] == c[0] {
      NameBeforeTransitive(a[1..], b[1..], c[1..]);
    }
  }

  lemma {:induction false} NameBeforeTotal(a: string, b: string)
    ensures NameBefore(a, b) || a == b || NameBefore(b, a)
    decreases |a|
  {
    if |a| > 0 && |b| > 0 && a[0] == b[0] {
      NameBeforeTotal(a[1..], b[1..]);
      assert a == [a[0]] + a[1..] && b == [b[0]] + b[1..];
    }
  }

  /** Names in strictly ascending name order (so without repeats). */
  predicate InNameOrder(s: seq<string>) {
    forall i, j :: 0 <= i < j < |s| ==> NameBefore(s[i], s[j])
  }

  lemma InNameOrderNoDuplicates(s: seq<string>)
    requires InNameOrder(s)
    ensures NoDuplicates(s)
  {
    forall i, j | 0 <= i < j < |s| ensures s[i] != s[j] {
      NameBeforeIrreflexive(s[i]);
    }
  }

  /** A list whose every neighbour pair is in name order is in name order. */
  lemma {:induction false} NeighboursInNameOrder(s: seq<string>)
    requires forall i :: 0 <= i < |s| - 1 ==> NameBefore(s[i], s[i + 1])
    ensures InNameOrder(s)
    decreases |s|
  {
    if |s| > 1 {
      var t := s[1..];
      assert forall i :: 0 <= i < |t| - 1 ==> NameBefore(t[i], t[i + 1]) by {
        forall i | 0 <= i < |t| - 1 ensures NameBefore(t[i], t[i + 1]) {
          assert t[i] == s[i + 1] && t[i + 1] == s[i + 2];
        }
      }
      NeighboursInNameOrder(t);
      forall i, j | 0 <= i < j < |s| ensures NameBefore(s[i], s[j]) {
        if i > 0 {
          assert s[i] == t[i - 1] && s[j] == t[j - 1];
        } else if j > 1 {
          assert s[1] == t[0] && s[j] == t[j - 1];
          NameBeforeTransitive(s[0], s[1], s[j]);
        }
      }
    }
  }

  /** Two lists in name order with the same names are the same list. */
  lemma {:induction false} InNameOrderUnique(s: seq<string>, t: seq<string>)
    requires InNameOrder(s) && InNameOrder(t)
    requires forall x :: x in s <==> x in t
    ensures s == t
    decreases |s|
  {
    if |t| > 0 {
      assert t[0] in s;
    }
    if |s| > 0 {
      assert s[0] in t;
      if s[0] != t[0] {
        assert t[0] in s;
        var k :| 0 <= k < |s| && s[k] == t[0];
        var m :| 0 <= m < |t| && t[m] == s[0];
        assert NameBefore(s[0], s[k]) && NameBefore(t[0], t[m]);
        NameBeforeTransitive(s[0], t[0], s[0]);
        NameBeforeIrreflexive(s[0]);
      }
      InNameOrderNoDuplicates(s);
      InNameOrderNoDuplicates(t);
      forall x ensures x in s[1..] <==> x in t[1..] {
        if x in s[1..] {
          var k :| 1 <= k < |s| && s[k] == x;
          assert x in t;
          var m :| 0 <= m < |t| && t[m] == x;
          assert m != 0 && t[1..][m - 1] == x;
        }
        if x in t[1..] {
          var k :| 1 <= k < |t| && t[k] == x;
          assert x in s;
          var m :| 0 <= m < |s| && s[m] == x;
          assert m != 0 && s[1..][m - 1] == x;
        }
      }
      assert InNameOrder(s[1..]) by {
        forall i, j | 0 <= i < j < |s| - 1 ensures NameBefore(s[1..][i], s[1..][j]) {
          assert s[1..][i] == s[i + 1] && s[1..][j] == s[j + 1];
        }
      }
      assert InNameOrder(t[1..]) by {
        forall i, j | 0 <= i < j < |t| - 1 ensures NameBefore(t[1..][i], t[1..][j]) {
          assert t[1..][i] == t[i + 1] && t[1..][j] == t[j + 1];
        }
      }
      InNameOrderUnique(s[1..], t[1..]);
      assert s == [s[0]] + s[1..] && t == [t[0]] + t[1..];
    }
  }

  /** Puts a name into its place in a list in name order, once. */
  function InsertByName(x: string, s: seq<string>): seq<string>
    decreases |s|
  {
    if |s| == 0 then [x]
    else if x == s[0] then s
    else if NameBefore(x, s[0]) then [x] + s
    else [s[0]] + InsertByName(x, s[1..])
  }

  lemma {:induction false} InsertByNameSpec(x: string, s: seq<string>)
    requires InNameOrder(s)
    ensures InNameOrder(InsertByName(x, s))
    ensures forall y :: y in InsertByName(x, s) <==> y == x || y in s
    decreases |s|
  {
    if |s| > 0 && x != s[0] {
      if NameBefore(x, s[0]) {
        var r := [x] + s;
        forall i, j | 0 <= i < j < |r| ensures NameBefore(r[i], r[j]) {
          if i == 0 {
            if j > 1 {
              NameBeforeTransitive(x, s[0], s[j - 1]);
            }
          } else {
            assert r[i] == s[i - 1] && r[j] == s[j - 1];
          }
        }
      } else {
        NameBeforeTotal(x, s[0]);
        var t := s[1..];
        assert InNameOrder(t) by {
          forall i, j | 0 <= i < j < |t| ensures NameBefore(t[i], t[j]) {
            assert t[i] == s[i + 1] && t[j] == s[j + 1];
          }
        }
        InsertByNameSpec(x, t);
        var u := InsertByName(x, t);
        forall y | y in u ensures NameBefore(s[0], y) {
          if y != x {
            var k :| 0 <= k < |t| && t[k] == y;
            assert s[k + 1] == y;
          }
        }
        var r := [s[0]] + u;
        forall i, j | 0 <= i < j < |r| ensures NameBefore(r[i], r[j]) {
          if i == 0 {
            assert r[j] == u[j - 1] && r[j] in u;
          } else {
            assert r[i] == u[i - 1] && r[j] == u[j - 1];
          }
        }
        assert s == [s[0]] + t;
      }
    }
  }

  /** The names sorted by name, each once. */
  function SortByName(s: seq<string>): seq<string>
    decreases |s|
  {
    if |s| == 0 then [] else InsertByName(s[0], SortByName(s[1..]))
  }

  /** Sorting yields a list in name order holding exactly the given names. */
  lemma {:induction false} SortByNameSpec(s: seq<string>)
    ensures InNameOrder(SortByName(s))
    ensures forall x :: x in SortByName(s) <==> x in s
    decreases |s|
  {
    if |s| > 0 {
      SortByNameSpec(s[1..]);
      InsertByNameSpec(s[0], SortByName(s[1..]));
      assert s == [s[0]] + s[1..];
    }
  }

  // ---------------------------------------------------------------------------
  // Discovery
  // ---------------------------------------------------------------------------

  /** Every plugin found on some search path, each name once, sorted by name
    * whatever the order of the directory listings. */
  function Discover(listings: seq<seq<string>>): (r: seq<string>)
    ensures InNameOrder(r)
    ensures NoDuplicates(r)
    ensures forall x :: x in r <==> exists i :: 0 <= i < |listings| && x in listings[i]
  {
    SortByNameSpec(Flatten(listings));
    InNameOrderNoDuplicates(SortByName(Flatten(listings)));
    SortByName(Flatten(listings))
  }

  /** Discovery is fixed by which names the search paths hold: with the same
    * names, listed in any order, it discovers the same plugins in the same
    * order. */
  lemma DiscoverIgnoresListingOrder(listings: seq<seq<string>>, others: seq<seq<string>>)
    requires forall x :: x in Flatten(listings) <==> x in Flatten(others)
    ensures Discover(listings) == Discover(others)
  {
    SortByNameSpec(Flatten(listings));
    SortByNameSpec(Flatten(others));
    InNameOrderUnique(Discover(listings), Discover(others));
  }

  // ---------------------------------------------------------------------------
  // Resolution of the selection list
  // ---------------------------------------------------------------------------

  /** The names the selection list mentions anywhere. */
  function NamedIn(sel: seq<Entry>): set<string> {
    set i | 0 <= i < |sel| && sel[i].Named? :: sel[i].plugin.name
  }

  /** The discovered plugins that the selection list does not name, in
    * discovery order: what `:all` stands for. */
  function Unlisted(discovered: seq<string>, named: set<string>): seq<string>
    decreases |discovered|
  {
    if |discovered| == 0 then []
    else (if discovered[0] in named then [] else [discovered[0]]) + Unlisted(discovered[1..], named)
  }

  /** `:all` stands for exactly the discovered plugins the list does not
    * name, each once when discovery lists each once. */
  lemma {:induction false} UnlistedSpec(discovered: seq<string>, named: set<string>)
    ensures forall x :: x in Unlisted(discovered, named) <==> x in discovered && x !in named
    ensures NoDuplicates(discovered) ==> NoDuplicates(Unlisted(discovered, named))
    decreases |discovered|
  {
    if |discovered| > 0 {
      UnlistedSpec(discovered[1..], named);
      assert NoDuplicates(discovered) ==> NoDuplicates(discovered[1..]) && discovered[0] !in discovered[1..];
      assert discovered == [discovered[0]] + discovered[1..];
    }
  }

  /** What one entry of the list contributes at its position. */
  function Contribution(discovered: seq<string>, e: Entry, named: set<string>): seq<string> {
    match e
    case All => Unlisted(discovered, named)
    case Named(p) => if p.name in discovered then [p.name] else []
  }

  /** The contributions of the entries, in listed order. */
  function Expand(discovered: seq<string>, sel: seq<Entry>, named: set<string>): seq<string>
    decreases |sel|
  {
    if |sel| == 0 then []
    else Contribution(discovered, sel[0], named) + Expand(discovered, sel[1..], named)
  }

  /** The selected names that no search path provides, in listed order. */
  function Missing(discovered: seq<string>, sel: seq<Entry>): seq<PluginName>
    decreases |sel|
  {
    if |sel| == 0 then []
    else
      match sel[0]
      case Named(p) => (if p.name in discovered then [] else [p]) + Missing(discovered, sel[1..])
      case All => Missing(discovered, sel[1..])
  }

  /** The missing names are exactly the selected names that are not discovered. */
  lemma {:induction false} MissingSpec(discovered: seq<string>, sel: seq<Entry>)
    ensures forall p :: p in Missing(discovered, sel) <==> Named(p) in sel && p.name !in discovered
    decreases |sel|
  {
    if |sel| > 0 {
      MissingSpec(discovered, sel[1..]);
      assert forall e :: e in sel <==> e == sel[0] || e in sel[1..] by {
        assert sel == [sel[0]] + sel[1..];
      }
    }
  }

  /** The `load_plugins` step: the loaded plugins in load order, and the
    * missing names the LoadError reports. With no selection list every
    * discovered plugin is loaded, in discovery order, and nothing is missing. */
  function Locate(discovered: seq<string>, selection: Option<seq<Entry>>): (r: Located)
    ensures NoDuplicates(r.loaded)
    ensures forall x :: x in r.loaded ==> x in discovered
    ensures forall m :: m in r.missing ==> m.name !in discovered
    ensures selection.None? && NoDuplicates(discovered) ==> r == Located(discovered, [])
  {
    match selection
    case None =>
      DedupSpec(discovered);
      Located(Dedup(discovered), [])
    case Some(sel) =>
      var order := Expand(discovered, sel, NamedIn(sel));
      ExpandWithin(discovered, sel, NamedIn(sel));
      MissingSpec(discovered, sel);
      DedupSpec(order);
      Located(Dedup(order), Missing(discovered, sel))
  }

  // ---------------------------------------------------------------------------
  // Helpers about the resolution
  // ---------------------------------------------------------------------------

  predicate NoWildcard(sel: seq<Entry>) {
    forall i :: 0 <= i < |sel| ==> sel[i].Named?
  }

  /** The names of a list without wildcard, in listed order. */
  function Names(sel: seq<Entry>): (r: seq<string>)
    requires NoWildcard(sel)
    ensures |r| == |sel|
    ensures forall i :: 0 <= i < |sel| ==> r[i] == sel[i].plugin.name
    decreases |sel|
  {
    if |sel| == 0 then [] else [sel[0].plugin.name] + Names(sel[1..])
  }

  /** The names of the entries that some search path provides, in listed order. */
  function Found(discovered: seq<string>, sel: seq<Entry>): seq<string>
    decreases |sel|
  {
    if |sel| == 0 then []
    else
      (if sel[0].Named? && sel[0].plugin.name in discovered then [sel[0].plugin.name] else [])
      + Found(discovered, sel[1..])
  }

  lemma {:induction false} ExpandWithin(discovered: seq<string>, sel: seq<Entry>, named: set<string>)
    ensures forall x :: x in Expand(discovered, sel, named) ==> x in discovered
    decreases |sel|
  {
    if |sel| > 0 {
      UnlistedSpec(discovered, named);
      ExpandWithin(discovered, sel[1..], named);
    }
  }

  lemma {:induction false} ExpandAppend(discovered: seq<string>, a: seq<Entry>, b: seq<Entry>, named: set<string>)
    ensures Expand(discovered, a + b, named) == Expand(discovered, a, named) + Expand(discovered, b, named)
    decreases |a|
  {
    if |a| == 0 {
      assert a + b == b;
    } else {
      assert (a + b)[1..] == a[1..] + b;
      ExpandAppend(discovered, a[1..], b, named);
    }
  }

  /** Without a wildcard, the expansion is the found names in listed order. */
  lemma {:induction false} ExpandWithoutWildcard(discovered: seq<string>, sel: seq<Entry>, named: set<string>)
    requires NoWildcard(sel)
    ensures Expand(discovered, sel, named) == Found(discovered, sel)
    decreases |sel|
  {
    if |sel| > 0 {
      ExpandWithoutWildcard(discovered, sel[1..], named);
    }
  }

  /** When every name is discovered, the found names are all the names. */
  lemma {:induction false} FoundAll(discovered: seq<string>, sel: seq<Entry>)
    requires NoWildcard(sel)
    requires forall i :: 0 <= i < |sel| ==> sel[i].plugin.name in discovered
    ensures Found(discovered, sel) == Names(sel)
    decreases |sel|
  {
    if |sel| > 0 {
      FoundAll(discovered, sel[1..]);
    }
  }

  lemma {:induction false} NoneMissing(discovered: seq<string>, sel: seq<Entry>)
    requires forall i :: 0 <= i < |sel| && sel[i].Named? ==> sel[i].plugin.name in discovered
    ensures Missing(discovered, sel) == []
    decreases |sel|
  {
    if |sel| > 0 {
      assert forall i :: 0 <= i < |sel[1..]| ==> sel[1..][i] == sel[i + 1];
      NoneMissing(discovered, sel[1..]);
    }
  }

  /** Distinct names around a block of distinct names foreign to them stay distinct. */
  lemma NoDuplicatesAround(nb: seq<string>, u: seq<string>, na: seq<string>, named: set<string>)
    requires NoDuplicates(nb + na) && NoDuplicates(u)
    requires forall x :: x in nb ==> x in named
    requires forall x :: x in na ==> x in named
    requires forall x :: x in u ==> x !in named
    ensures NoDuplicates(nb + u + na)
  {
    var order := nb + u + na;
    forall i, j | 0 <= i < j < |order| ensures order[i] != order[j] {
      if j < |nb| {
        assert (nb + na)[i] == order[i] && (nb + na)[j] == order[j];
      } else if i < |nb| && j < |nb| + |u| {
        assert order[i] in nb && order[j] in u;
      } else if i < |nb| {
        assert (nb + na)[i] == order[i] && (nb + na)[j - |u|] == order[j];
      } else if j < |nb| + |u| {
        assert order[i] == u[i - |nb|] && order[j] == u[j - |nb|];
      } else if i < |nb| + |u| {
        assert order[i] in u && order[j] in na;
      } else {
        assert (nb + na)[i - |u|] == order[i] && (nb + na)[j - |u|] == order[j];
      }
    }
  }

  // ---------------------------------------------------------------------------
  // The rules the plugin-loading tests fix
  // ---------------------------------------------------------------------------

  /** An explicit list without `:all` whose names are all discovered loads
    * exactly that list, in the listed order, and reports nothing missing
    * (the empty list loads nothing). */
  lemma ExplicitListLoadsExactlyThatList(discovered: seq<string>, sel: seq<Entry>)
    requires NoWildcard(sel)
    requires forall i :: 0 <= i < |sel| ==> sel[i].plugin.name in discovered
    requires NoDuplicates(Names(sel))
    ensures Locate(discovered, Some(sel)) == Located(Names(sel), [])
  {
    ExpandWithoutWildcard(discovered, sel, NamedIn(sel));
    FoundAll(discovered, sel);
    NoneMissing(discovered, sel);
    DedupSpec(Names(sel));
  }

  /** `:all` is replaced, at its own position, by the discovered plugins that
    * the list names nowhere (before or after it), in discovery order; the
    * named entries keep their listed places around it. */
  lemma AllExpandsInPlace(discovered: seq<string>, before: seq<Entry>, after: seq<Entry>)
    requires NoDuplicates(discovered)
    requires NoWildcard(before) && NoWildcard(after)
    requires forall i :: 0 <= i < |before| ==> before[i].plugin.name in discovered
    requires forall i :: 0 <= i < |after| ==> after[i].plugin.name in discovered
    requires NoDuplicates(Names(before) + Names(after))
    ensures var sel := before + [All] + after;
      Locate(discovered, Some(sel)) ==
      Located(Names(before) + Unlisted(discovered, NamedIn(sel)) + Names(after), [])
  {
    var sel := before + [All] + after;
    var named := NamedIn(sel);
    var nb, u, na := Names(before), Unlisted(discovered, named), Names(after);
    UnlistedSpec(discovered, named);
    ExpandAround(discovered, before, after, named);
    NamedAroundAll(before, after);
    NoDuplicatesAround(nb, u, na, named);
    DedupSpec(nb + u + na);
    AroundAllDiscovered(discovered, before, after);
    NoneMissing(discovered, sel);
  }

  /** `before + [:all] + after` with names that may be missing: the found
    * names before, the unnamed discovered plugins, then the found names
    * after, each plugin once at its first place. */
  lemma AllWithMissingNames(discovered: seq<string>, before: seq<Entry>, after: seq<Entry>)
    requires NoWildcard(before) && NoWildcard(after)
    ensures var sel := before + [All] + after;
      Locate(discovered, Some(sel)).loaded ==
        Dedup(Found(discovered, before) + Unlisted(discovered, NamedIn(sel)) + Found(discovered, after))
  {
    var sel := before + [All] + after;
    var named := NamedIn(sel);
    ExpandAppend(discovered, before + [All], after, named);
    ExpandAppend(discovered, before, [All], named);
    assert Expand(discovered, [All], named) == Unlisted(discovered, named);
    ExpandWithoutWildcard(discovered, before, named);
    ExpandWithoutWildcard(discovered, after, named);
  }

  /** A list with `:all` fails to load exactly when a name on either side of
    * it is not discovered. */
  lemma AllFailsIffNameMissing(discovered: seq<string>, before: seq<Entry>, after: seq<Entry>)
    requires NoWildcard(before) && NoWildcard(after)
    ensures var sel := before + [All] + after;
      Locate(discovered, Some(sel)).Failed() <==>
        (exists i :: 0 <= i < |before| && before[i].plugin.name !in discovered) ||
        (exists i :: 0 <= i < |after| && after[i].plugin.name !in discovered)
  {
    var sel := before + [All] + after;
    MissingSpec(discovered, sel);
    var r := Locate(discovered, Some(sel));
    if exists i :: 0 <= i < |before| && before[i].plugin.name !in discovered {
      var i :| 0 <= i < |before| && before[i].plugin.name !in discovered;
      assert sel[i] == before[i] && Named(before[i].plugin) in sel;
      assert before[i].plugin in r.missing;
    } else if exists i :: 0 <= i < |after| && after[i].plugin.name !in discovered {
      var i :| 0 <= i < |after| && after[i].plugin.name !in discovered;
      assert sel[|before| + 1 + i] == after[i] && Named(after[i].plugin) in sel;
      assert after[i].plugin in r.missing;
    } else {
      AroundAllDiscovered(discovered, before, after);
      NoneMissing(discovered, sel);
    }
  }

  /** The names on either side of `:all` are among the names the list mentions. */
  lemma NamedAroundAll(before: seq<Entry>, after: seq<Entry>)
    requires NoWildcard(before) && NoWildcard(after)
    ensures forall x :: x in Names(before) ==> x in NamedIn(before + [All] + after)
    ensures forall x :: x in Names(after) ==> x in NamedIn(before + [All] + after)
  {
    var sel := before + [All] + after;
    var nb, na := Names(before), Names(after);
    forall i | 0 <= i < |before| ensures nb[i] in NamedIn(sel) { assert sel[i] == before[i]; }
    forall i | 0 <= i < |after| ensures na[i] in NamedIn(sel) { assert sel[|before| + 1 + i] == after[i]; }
  }

  /** Every entry named around `:all` is discovered when those on each side are. */
  lemma AroundAllDiscovered(discovered: seq<string>, before: seq<Entry>, after: seq<Entry>)
    requires NoWildcard(before) && NoWildcard(after)
    requires forall i :: 0 <= i < |before| ==> before[i].plugin.name in discovered
    requires forall i :: 0 <= i < |after| ==> after[i].plugin.name in discovered
    ensures var sel := before + [All] + after;
      forall i :: 0 <= i < |sel| && sel[i].Named? ==> sel[i].plugin.name in discovered
  {
    var sel := before + [All] + after;
    forall i | 0 <= i < |sel| && sel[i].Named? ensures sel[i].plugin.name in discovered {
      if i < |before| { assert sel[i] == before[i]; }
      else if i > |before| { assert sel[i] == after[i - |before| - 1]; }
    }
  }

  lemma ExpandAround(discovered: seq<string>, before: seq<Entry>, after: seq<Entry>, named: set<string>)
    requires NoWildcard(before) && NoWildcard(after)
    requires forall i :: 0 <= i < |before| ==> before[i].plugin.name in discovered
    requires forall i :: 0 <= i < |after| ==> after[i].plugin.name in discovered
    ensures Expand(discovered, before + [All] + after, named) ==
      Names(before) + Unlisted(discovered, named) + Names(after)
  {
    ExpandAppend(discovered, before + [All], after, named);
    ExpandAppend(discovered, before, [All], named);
    assert Expand(discovered, [All], named) == Unlisted(discovered, named);
    ExpandWithoutWildcard(discovered, before, named);
    ExpandWithoutWildcard(discovered, after, named);
    FoundAll(discovered, before);
    FoundAll(discovered, after);
  }

  /** Without `:all`, each listed name that some path provides is loaded in
    * listed order (its first mention counts), whether or not others are
    * missing; the load fails exactly when some listed name is not found. */
  lemma ValidNamesStayLoaded(discovered: seq<string>, sel: seq<Entry>)
    requires NoWildcard(sel)
    ensures Locate(discovered, Some(sel)).loaded == Dedup(Found(discovered, sel))
    ensures Locate(discovered, Some(sel)).Failed() <==>
      exists i :: 0 <= i < |sel| && sel[i].plugin.name !in discovered
  {
    ExpandWithoutWildcard(discovered, sel, NamedIn(sel));
    MissingSpec(discovered, sel);
    var r := Locate(discovered, Some(sel));
    if exists i :: 0 <= i < |sel| && sel[i].plugin.name !in discovered {
      var i :| 0 <= i < |sel| && sel[i].plugin.name !in discovered;
      assert Named(sel[i].plugin) in sel;
      assert sel[i].plugin in r.missing;
    } else {
      NoneMissing(discovered, sel);
    }
  }

  /** The LoadError names exactly the selected plugins that were not found:
    * every one of them, and none that was found. */
  lemma MissingNamesExactlyTheAbsent(discovered: seq<string>, sel: seq<Entry>, p: PluginName)
    ensures p in Locate(discovered, Some(sel)).missing <==> Named(p) in sel && p.name !in discovered
  {
    MissingSpec(discovered, sel);
  }

  /** Two entries that name the same plugin, as a symbol or as a string. */
  predicate SameEntry(a: Entry, b: Entry) {
    (a.All? && b.All?) || (a.Named? && b.Named? && a.plugin.name == b.plugin.name)
  }

  lemma {:induction false} ExpandSameEntries(discovered: seq<string>, a: seq<Entry>, b: seq<Entry>, named: set<string>)
    requires |a| == |b|
    requires forall i :: 0 <= i < |a| ==> SameEntry(a[i], b[i])
    ensures Expand(discovered, a, named) == Expand(discovered, b, named)
    decreases |a|
  {
    if |a| > 0 {
      assert SameEntry(a[0], b[0]);
      ExpandSameEntries(discovered, a[1..], b[1..], named);
    }
  }

  /** The names a LoadError reports, whichever form they were written in. */
  function MissingNames(r: Located): set<string> {
    set p | p in r.missing :: p.name
  }

  /** Strings and symbols name plugins interchangeably: lists that agree
    * entry by entry on the names load the same plugins in the same order and
    * report the same missing names. */
  lemma StringsAndSymbolsMatchAlike(discovered: seq<string>, a: seq<Entry>, b: seq<Entry>)
    requires |a| == |b|
    requires forall i :: 0 <= i < |a| ==> SameEntry(a[i], b[i])
    ensures Locate(discovered, Some(a)).loaded == Locate(discovered, Some(b)).loaded
    ensures MissingNames(Locate(discovered, Some(a))) == MissingNames(Locate(discovered, Some(b)))
  {
    assert NamedIn(a) == NamedIn(b) by {
      forall x ensures x in NamedIn(a) <==> x in NamedIn(b) {
        if x in NamedIn(a) {
          var i :| 0 <= i < |a| && a[i].Named? && a[i].plugin.name == x;
          assert SameEntry(a[i], b[i]);
        }
        if x in NamedIn(b) {
          var i :| 0 <= i < |b| && b[i].Named? && b[i].plugin.name == x;
          assert SameEntry(a[i], b[i]);
        }
      }
    }
    ExpandSameEntries(discovered, a, b, NamedIn(a));
    var ra, rb := Locate(discovered, Some(a)), Locate(discovered, Some(b));
    MissingSpec(discovered, a);
    MissingSpec(discovered, b);
    forall x ensures x in MissingNames(ra) <==> x in MissingNames(rb) {
      if x in MissingNames(ra) {
        var p :| p in ra.missing && p.name == x;
        var i :| 0 <= i < |a| && a[i] == Named(p);
        assert SameEntry(a[i], b[i]);
        assert b[i].plugin in rb.missing;
      }
      if x in MissingNames(rb) {
        var q :| q in rb.missing && q.name == x;
        var i :| 0 <= i < |b| && b[i] == Named(q);
        assert SameEntry(a[i], b[i]);
        assert a[i].plugin in ra.missing;
      }
    }
  }
}
