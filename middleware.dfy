/**
 * The `initialize_database_middleware` step: which calls it makes on the
 * application's middleware stack, and what those calls do to the stack.
 */
module DatabaseMiddleware {
  import opened Wrappers
  import Frameworks

  /** The session store middleware the record layer provides, by class name. */
  const ActiveRecordSessionStore: string := "ActiveRecord::SessionStore"
  const ConnectionManagement: string := "ActiveRecord::ConnectionAdapters::ConnectionManagement"
  const QueryCache: string := "ActiveRecord::QueryCache"

  /** A call on the middleware stack. */
  datatype Call = InsertBefore(anchor: string, component: string) | Use(component: string)

  /** The calls the step makes, in order: nothing without the record layer;
    * two insertions before the session store when the controller layer is
    * active and its session store is the record-backed one; two appends
    * otherwise. */
  function Calls(frameworks: seq<Frameworks.Framework>, sessionStore: string): seq<Call> {
    if Frameworks.ActiveRecord !in frameworks then []
    else if Frameworks.ActionController in frameworks && sessionStore == ActiveRecordSessionStore then
      [InsertBefore(ActiveRecordSessionStore, ConnectionManagement),
       InsertBefore(ActiveRecordSessionStore, QueryCache)]
    else
      [Use(ConnectionManagement), Use(QueryCache)]
  }

  /** The first position of a middleware in the stack. */
  function IndexOf(stack: seq<string>, name: string): (k: nat)
    requires name in stack
    ensures k < |stack| && stack[k] == name && name !in stack[..k]
    decreases |stack|
  {
    if stack[0] == name then 0
    else
      var k := IndexOf(stack[1..], name);
      assert stack[1..][..k] == stack[1..k + 1];
      1 + k
  }

  /** One call applied to a stack; inserting before a middleware that is not
    * in the stack fails. */
  function Apply(stack: seq<string>, call: Call): Option<seq<string>> {
    match call
    case Use(c) => Some(stack + [c])
    case InsertBefore(anchor, c) =>
      if anchor in stack then
        var k := IndexOf(stack, anchor);
        Some(stack[..k] + [c] + stack[k..])
      else None
  }

  /** The calls applied in order, stopping at the first that fails. */
  function ApplyAll(stack: seq<string>, calls: seq<Call>): Option<seq<string>>
    decreases |calls|
  {
    if |calls| == 0 then Some(stack)
    else
      match Apply(stack, calls[0])
      case None => None
      case Some(s) => ApplyAll(s, calls[1..])
  }

  /** Without the record layer the step leaves the stack untouched: it makes
    * no call at all. */
  lemma NoRecordLayerNoCalls(frameworks: seq<Frameworks.Framework>, sessionStore: string, stack: seq<string>)
    requires Frameworks.ActiveRecord !in frameworks
    ensures Calls(frameworks, sessionStore) == []
    ensures ApplyAll(stack, Calls(frameworks, sessionStore)) == Some(stack)
  {
  }

  /** Two calls applied one after the other. */
  lemma ApplyTwo(stack: seq<string>, c1: Call, c2: Call)
    ensures ApplyAll(stack, [c1, c2]) ==
      match Apply(stack, c1)
      case None => None
      case Some(s) => Apply(s, c2)
  {
    assert [c1, c2][1..] == [c2];
    assert [c2][1..] == [];
    if Apply(stack, c1).Some? {
      var s := Apply(stack, c1).value;
      assert ApplyAll(s, [c2]) == Apply(s, c2) by {
        if Apply(s, c2).Some? {
          assert ApplyAll(Apply(s, c2).value, []) == Apply(s, c2);
        }
      }
    }
  }

  /** The step inserts before the session store exactly when the record and
    * controller layers are active and the session store is the record one;
    * otherwise, with the record layer, it only appends. */
  lemma InsertsIffRecordSessionStore(frameworks: seq<Frameworks.Framework>, sessionStore: string)
    requires Frameworks.ActiveRecord in frameworks
    ensures var calls := Calls(frameworks, sessionStore);
      |calls| == 2 &&
      (calls[0].InsertBefore? && calls[1].InsertBefore? <==>
        Frameworks.ActionController in frameworks && sessionStore == ActiveRecordSessionStore) &&
      (calls[0].Use? && calls[1].Use? <==>
        !(Frameworks.ActionController in frameworks && sessionStore == ActiveRecordSessionStore))
  {
  }

  /** Inserting before a middleware puts the component at that middleware's
    * first position, which moves one place down. */
  lemma InsertBeforeFirst(stack: seq<string>, anchor: string, c: string)
    requires anchor in stack && c != anchor
    ensures var k := IndexOf(stack, anchor);
      var s := stack[..k] + [c] + stack[k..];
      Apply(stack, InsertBefore(anchor, c)) == Some(s) && anchor in s && IndexOf(s, anchor) == k + 1
  {
    var k := IndexOf(stack, anchor);
    var s := stack[..k] + [c] + stack[k..];
    assert s[k + 1] == anchor;
    assert s[..k + 1] == stack[..k] + [c];
    assert anchor !in s[..k + 1];
  }

  /** Splitting after the inserted component is splitting right after it. */
  lemma SplitAfterInserted(stack: seq<string>, k: nat, c1: string, c2: string)
    requires k <= |stack|
    ensures var s1 := stack[..k] + [c1] + stack[k..];
      s1[..k + 1] + [c2] + s1[k + 1..] == stack[..k] + [c1, c2] + stack[k..]
  {
    var s1 := stack[..k] + [c1] + stack[k..];
    assert s1[..k + 1] == stack[..k] + [c1];
    assert s1[k + 1..] == stack[k..];
  }

  /** Two insertions before the same middleware land next to each other, in
    * call order, just before it. */
  lemma InsertTwoBefore(stack: seq<string>, anchor: string, c1: string, c2: string)
    requires anchor in stack && c1 != anchor && c2 != anchor
    ensures var k := IndexOf(stack, anchor);
      ApplyAll(stack, [InsertBefore(anchor, c1), InsertBefore(anchor, c2)]) ==
      Some(stack[..k] + [c1, c2] + stack[k..])
  {
    var k := IndexOf(stack, anchor);
    var s1 := stack[..k] + [c1] + stack[k..];
    InsertBeforeFirst(stack, anchor, c1);
    InsertBeforeFirst(s1, anchor, c2);
    SplitAfterInserted(stack, k, c1, c2);
    ApplyTwo(stack, InsertBefore(anchor, c1), InsertBefore(anchor, c2));
  }

  /** With the record session store, the connection manager and the query
    * cache end up immediately before the session store, in that order, and
    * the rest of the stack keeps its order. */
  lemma InsertedJustBeforeSessionStore(frameworks: seq<Frameworks.Framework>, stack: seq<string>)
    requires Frameworks.ActiveRecord in frameworks && Frameworks.ActionController in frameworks
    requires ActiveRecordSessionStore in stack
    ensures var k := IndexOf(stack, ActiveRecordSessionStore);
      ApplyAll(stack, Calls(frameworks, ActiveRecordSessionStore)) ==
      Some(stack[..k] + [ConnectionManagement, QueryCache] + stack[k..])
  {
    var store, manager, cache := ActiveRecordSessionStore, ConnectionManagement, QueryCache;
    assert |manager| != |store| && |cache| != |store|;
    InsertTwoBefore(stack, store, manager, cache);
  }

  /** Otherwise, with the record layer, both components go to the end of the
    * stack, the connection manager first. */
  lemma AppendedOtherwise(frameworks: seq<Frameworks.Framework>, sessionStore: string, stack: seq<string>)
    requires Frameworks.ActiveRecord in frameworks
    requires !(Frameworks.ActionController in frameworks && sessionStore == ActiveRecordSessionStore)
    ensures ApplyAll(stack, Calls(frameworks, sessionStore)) == Some(stack + [ConnectionManagement, QueryCache])
  {
    ApplyTwo(stack, Use(ConnectionManagement), Use(QueryCache));
    assert stack + [ConnectionManagement] + [QueryCache] == stack + [ConnectionManagement, QueryCache];
  }
}
