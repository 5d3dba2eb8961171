/**
 * The generators part of the configuration: a builder that records settings
 * sent to it as arbitrary method calls, routing each one to an options map
 * and an aliases map keyed by generator namespace; and the
 * `initialize_generators` step that deep-merges those maps into the
 * process-wide generators registry.
 */
module GeneratorsConfiguration {

  /** The Ruby values a setting can carry. Hash keys are symbols, written by name. */
  datatype Value =
    | Sym(name: string)
    | Str(text: string)
    | Bool(b: bool)
    | Nil
    | Hash(entries: map<string, Value>)

  /** Ruby truthiness: everything but `nil` and `false`. */
  predicate Truthy(v: Value) {
    v != Nil && v != Bool(false)
  }

  /** A generator namespace's settings, keyed by setting name. */
  type Settings = map<string, Value>

  /** Options or aliases: settings per namespace (the namespace is a Ruby value). */
  type Table = map<Value, Settings>

  /** The namespace bare settings go to. */
  const Rails: Value := Sym("rails")

  /** The key whose value is routed to the aliases table. */
  const AliasesKey: string := "aliases"

  /** A table read at a namespace; both tables create an empty entry on first use. */
  function At(t: Table, namespace: Value): Settings {
    if namespace in t then t[namespace] else map[]
  }

  /** A shallow, key-by-key merge into one namespace (`merge!`): later keys win. */
  function MergeInto(t: Table, namespace: Value, s: Settings): (r: Table)
    ensures r.Keys == t.Keys + {namespace}
    ensures r[namespace].Keys == At(t, namespace).Keys + s.Keys
    ensures forall k :: k in s ==> r[namespace][k] == s[k]
    ensures forall k :: k in At(t, namespace) && k !in s ==> r[namespace][k] == At(t, namespace)[k]
    ensures forall n :: n in t && n != namespace ==> r[n] == t[n]
  {
    t[namespace := At(t, namespace) + s]
  }

  /** The two tables the builder keeps. */
  datatype Tables = Tables(options: Table, aliases: Table)

  /** The tables after one setting call, and whether the call raised. */
  datatype Reply = Reply(tables: Tables, raised: bool)

  /** The setting a method name stands for: a trailing `=` is dropped. */
  function SettingName(call: string): (name: string)
    ensures name == call || name + "=" == call
    ensures |call| > 0 && call[|call| - 1] == '=' ==> name + "=" == call
  {
    if |call| > 0 && call[|call| - 1] == '=' then call[..|call| - 1] else call
  }

  /** An argument by position: `args.shift` gives `nil` past the end. */
  function Arg(args: seq<Value>, i: nat): Value {
    if i < |args| then args[i] else Nil
  }

  /** Records a configuration value under a namespace. A falsy configuration
    * records nothing; one that is not a hash raises. The `:aliases` entry is
    * taken out of the hash: when it is truthy it is merged into the aliases
    * at the namespace (raising, after the namespace's entry was created, when
    * it is not a hash); the rest is merged into the options there. */
  function Configure(t: Tables, namespace: Value, configuration: Value): Reply {
    if !Truthy(configuration) then Reply(t, false)
    else if !configuration.Hash? then Reply(t, true)
    else
      var c := configuration.entries;
      var aliases := if AliasesKey in c then c[AliasesKey] else Nil;
      var rest := c - {AliasesKey};
      if !Truthy(aliases) then
        Reply(Tables(MergeInto(t.options, namespace, rest), t.aliases), false)
      else if !aliases.Hash? then
        Reply(Tables(t.options, t.aliases[namespace := At(t.aliases, namespace)]), true)
      else
        Reply(Tables(MergeInto(t.options, namespace, rest), MergeInto(t.aliases, namespace, aliases.entries)), false)
  }

  /** One setting call on the builder (its `method_missing`):
    *  - `rails ...` configures the `:rails` namespace with the first argument;
    *  - `name {hash}` configures namespace `:name` with that hash;
    *  - `name value [, hash]` (or `name = value`) records `value` as the
    *    `:rails` option `name`, then configures namespace `value` with the
    *    second argument. */
  function MethodMissing(t: Tables, call: string, args: seq<Value>): Reply {
    var name := SettingName(call);
    if name == "rails" then Configure(t, Rails, Arg(args, 0))
    else if Arg(args, 0).Hash? then Configure(t, Sym(name), Arg(args, 0))
    else
      var options := t.options[Rails := At(t.options, Rails)[name := Arg(args, 0)]];
      Configure(Tables(options, t.aliases), Arg(args, 0), Arg(args, 1))
  }

  /** The names the builder answers itself; they never reach `MethodMissing`. */
  predicate IsAccessor(call: string) {
    call in {"aliases", "aliases=", "options", "options=", "colorize_logging", "colorize_logging="}
  }

  /** The builder object held by the configuration. */
  class Generators {
    var options: Table
    var aliases: Table
    var colorizeLogging: bool

    /** Both tables start empty and logging is colourised. */
    constructor ()
      ensures options == map[] && aliases == map[] && colorizeLogging
    {
      options := map[];
      aliases := map[];
      colorizeLogging := true;
    }

    /** The two tables as a value. */
    function Snapshot(): Tables
      reads this
    {
      Tables(options, aliases)
    }

    /** `aliases = ...` replaces the aliases table. */
    method SetAliases(a: Table)
      modifies this
      ensures aliases == a && options == old(options) && colorizeLogging == old(colorizeLogging)
    {
      aliases := a;
    }

    /** `options = ...` replaces the options table. */
    method SetOptions(o: Table)
      modifies this
      ensures options == o && aliases == old(aliases) && colorizeLogging == old(colorizeLogging)
    {
      options := o;
    }

    /** `colorize_logging = ...`. */
    method SetColorizeLogging(on: bool)
      modifies this
      ensures colorizeLogging == on && options == old(options) && aliases == old(aliases)
    {
      colorizeLogging := on;
    }

    /** Any other call: the tables become what `MethodMissing` gives, also
      * when the call raises part-way. */
    method Send(call: string, args: seq<Value>) returns (raised: bool)
      requires !IsAccessor(call)
      modifies this
      ensures Snapshot() == MethodMissing(old(Snapshot()), call, args).tables
      ensures raised == MethodMissing(old(Snapshot()), call, args).raised
      ensures colorizeLogging == old(colorizeLogging)
    {
      var reply := MethodMissing(Tables(options, aliases), call, args);
      options := reply.tables.options;
      aliases := reply.tables.aliases;
      raised := reply.raised;
    }
  }

  /** Whether a value's settings go to a namespace (a hash) or are invalid. */
  predicate RaisesOn(configuration: Value) {
    Truthy(configuration) &&
    (!configuration.Hash? ||
     (AliasesKey in configuration.entries && Truthy(configuration.entries[AliasesKey]) &&
      !configuration.entries[AliasesKey].Hash?))
  }

  /** `Configure` raises exactly for a truthy non-hash configuration, or for a
    * hash whose `:aliases` entry is a truthy non-hash. */
  lemma ConfigureRaisesIff(t: Tables, namespace: Value, configuration: Value)
    ensures Configure(t, namespace, configuration).raised <==> RaisesOn(configuration)
  {
  }

  /** Ruby truthiness: a `nil` or `false` configuration records nothing and
    * raises nothing. */
  lemma FalsyConfigurationRecordsNothing(t: Tables, namespace: Value, configuration: Value)
    requires configuration == Nil || configuration == Bool(false)
    ensures Configure(t, namespace, configuration) == Reply(t, false)
  {
  }

  /** A call raises exactly when the configuration it routes raises. */
  lemma MethodMissingRaisesIff(t: Tables, call: string, args: seq<Value>)
    ensures var name := SettingName(call);
      MethodMissing(t, call, args).raised <==>
        if name == "rails" || Arg(args, 0).Hash? then RaisesOn(Arg(args, 0)) else RaisesOn(Arg(args, 1))
  {
  }

  /** Table `b` keeps every namespace and every setting name of `a`. */
  predicate Extends(a: Table, b: Table) {
    forall n :: n in a ==> n in b && a[n].Keys <= b[n].Keys
  }

  lemma ExtendsTransitive(a: Table, b: Table, c: Table)
    requires Extends(a, b) && Extends(b, c)
    ensures Extends(a, c)
  {
  }

  /** Settings accumulate: no call, raising or not, drops a namespace or a
    * setting name from either table. */
  lemma {:induction false} SettingsAccumulate(t: Tables, call: string, args: seq<Value>)
    ensures var r := MethodMissing(t, call, args).tables;
      Extends(t.options, r.options) && Extends(t.aliases, r.aliases)
  {
    var name := SettingName(call);
    if name == "rails" {
      ConfigureExtends(t, Rails, Arg(args, 0));
    } else if Arg(args, 0).Hash? {
      ConfigureExtends(t, Sym(name), Arg(args, 0));
    } else {
      var options := t.options[Rails := At(t.options, Rails)[name := Arg(args, 0)]];
      assert Extends(t.options, options);
      ConfigureExtends(Tables(options, t.aliases), Arg(args, 0), Arg(args, 1));
      ExtendsTransitive(t.options, options, MethodMissing(t, call, args).tables.options);
    }
  }

  lemma ConfigureExtends(t: Tables, namespace: Value, configuration: Value)
    ensures var r := Configure(t, namespace, configuration).tables;
      Extends(t.options, r.options) && Extends(t.aliases, r.aliases)
  {
  }

  /** A bare setting (`orm = :datamapper`, or `orm :datamapper`) is recorded
    * under `:rails` and touches nothing else. */
  lemma BareSettingGoesUnderRails(t: Tables, call: string, value: Value)
    requires SettingName(call) != "rails" && !value.Hash?
    ensures var r := MethodMissing(t, call, [value]);
      !r.raised &&
      r.tables.options == t.options[Rails := At(t.options, Rails)[SettingName(call) := value]] &&
      r.tables.aliases == t.aliases
  {
  }

  /** `orm :datamapper, :migration => false`: the value is recorded under
    * `:rails`, and the hash's settings under the namespace the value names. */
  lemma HashSettingGoesUnderValueNamespace(t: Tables, call: string, value: Value, settings: Settings)
    requires SettingName(call) != "rails" && !value.Hash? && value != Rails
    requires AliasesKey !in settings
    ensures var r := MethodMissing(t, call, [value, Hash(settings)]);
      !r.raised &&
      r.tables.options[Rails] == At(t.options, Rails)[SettingName(call) := value] &&
      r.tables.options[value] == At(t.options, value) + settings &&
      (forall n :: n in t.options && n != Rails && n != value ==> r.tables.options[n] == t.options[n]) &&
      r.tables.options.Keys == t.options.Keys + {Rails, value} &&
      r.tables.aliases == t.aliases
  {
  }

  /** `plugin :aliases => {...}, :generator => true`: the `:aliases` hash goes
    * to the aliases table and only the other settings go to the options,
    * both under the namespace the method names. */
  lemma AliasesKeyGoesToAliases(t: Tables, call: string, aliases: Settings, settings: Settings)
    requires AliasesKey !in settings
    ensures var name := SettingName(call);
      var namespace := if name == "rails" then Rails else Sym(name);
      var r := MethodMissing(t, call, [Hash(settings[AliasesKey := Hash(aliases)])]);
      !r.raised &&
      r.tables.aliases == t.aliases[namespace := At(t.aliases, namespace) + aliases] &&
      r.tables.options == t.options[namespace := At(t.options, namespace) + settings]
  {
    var c := settings[AliasesKey := Hash(aliases)];
    assert c - {AliasesKey} == settings;
  }

  /** Configuring a namespace twice merges the two hashes key by key. The
    * `rails` call is covered too: its namespace `:rails` is `Sym("rails")`. */
  lemma RepeatedNamespaceMerges(t: Tables, call: string, first: Settings, second: Settings)
    requires AliasesKey !in first && AliasesKey !in second
    ensures var ns := Sym(SettingName(call));
      var r1 := MethodMissing(t, call, [Hash(first)]);
      var r2 := MethodMissing(r1.tables, call, [Hash(second)]);
      !r2.raised && r2.tables.options[ns] == At(t.options, ns) + first + second
  {
    assert first - {AliasesKey} == first;
    assert second - {AliasesKey} == second;
  }

  /** The deep merge of one hash into another (`deep_merge`): at a key both
    * hold as hashes the two are merged again; otherwise the second one's
    * value wins. */
  function DeepMerge(a: Settings, b: Settings): (r: Settings)
    ensures r.Keys == a.Keys + b.Keys
    decreases Hash(b)
  {
    map k | k in a.Keys + b.Keys ::
      if k in b then
        if k in a && a[k].Hash? && b[k].Hash? then Hash(DeepMerge(a[k].entries, b[k].entries)) else b[k]
      else a[k]
  }

  /** Hash `a` holds everything `b` holds: every key, the same scalar values,
    * and nested hashes that in turn hold `b`'s. */
  predicate Covers(a: Settings, b: Settings)
    decreases Hash(b)
  {
    forall k :: k in b ==>
      k in a &&
      (b[k].Hash? ==> a[k].Hash? && Covers(a[k].entries, b[k].entries)) &&
      (!b[k].Hash? ==> a[k] == b[k])
  }

  lemma {:induction false} CoversItself(a: Settings)
    ensures Covers(a, a)
    decreases Hash(a)
  {
    forall k | k in a && a[k].Hash?
      ensures Covers(a[k].entries, a[k].entries)
    {
      CoversItself(a[k].entries);
    }
  }

  /** Nothing the second hash says is lost by deep merging it in. */
  lemma {:induction false} DeepMergeCoversSecond(a: Settings, b: Settings)
    ensures Covers(DeepMerge(a, b), b)
    decreases Hash(b)
  {
    var r := DeepMerge(a, b);
    forall k | k in b && b[k].Hash?
      ensures r[k].Hash? && Covers(r[k].entries, b[k].entries)
    {
      if k in a && a[k].Hash? {
        DeepMergeCoversSecond(a[k].entries, b[k].entries);
      } else {
        CoversItself(b[k].entries);
      }
    }
  }

  /** Keys only the first hash holds keep their values. */
  lemma DeepMergeKeepsFirst(a: Settings, b: Settings, k: string)
    requires k in a && k !in b
    ensures DeepMerge(a, b)[k] == a[k]
  {
  }

  /** Hash `r` retains every setting of `a` that `b` does not replace, at
    * every depth: a key `b` lacks keeps `a`'s value, and where both hold a
    * hash the nested hash retains `a`'s nested settings in turn. */
  predicate Retains(r: Settings, a: Settings, b: Settings)
    decreases Hash(a)
  {
    forall k :: k in a ==>
      k in r &&
      (k !in b ==> r[k] == a[k]) &&
      (k in b && a[k].Hash? && b[k].Hash? ==>
        r[k].Hash? && Retains(r[k].entries, a[k].entries, b[k].entries))
  }

  /** Deep merging keeps every setting of the first hash, at every depth, that
    * the second one does not replace; a shallow merge would drop the nested
    * settings of the first hash wherever both hold a hash. */
  lemma {:induction false} DeepMergeRetainsFirst(a: Settings, b: Settings)
    ensures Retains(DeepMerge(a, b), a, b)
    decreases Hash(a)
  {
    var r := DeepMerge(a, b);
    forall k | k in a && k in b && a[k].Hash? && b[k].Hash?
      ensures r[k].Hash? && Retains(r[k].entries, a[k].entries, b[k].entries)
    {
      DeepMergeRetainsFirst(a[k].entries, b[k].entries);
    }
  }

  /** One level down: a nested setting the second hash does not name survives. */
  lemma DeepMergeKeepsNested(a: Settings, b: Settings, k: string, k2: string)
    requires k in a && k in b && a[k].Hash? && b[k].Hash?
    requires k2 in a[k].entries && k2 !in b[k].entries
    ensures DeepMerge(a, b)[k].Hash? && k2 in DeepMerge(a, b)[k].entries
    ensures DeepMerge(a, b)[k].entries[k2] == a[k].entries[k2]
  {
    DeepMergeRetainsFirst(a, b);
  }

  /** Deep merging a hash into itself changes nothing. */
  lemma {:induction false} DeepMergeIdempotent(a: Settings)
    ensures DeepMerge(a, a) == a
    decreases Hash(a)
  {
    var r := DeepMerge(a, a);
    forall k | k in a
      ensures r[k] == a[k]
    {
      if a[k].Hash? {
        DeepMergeIdempotent(a[k].entries);
      }
    }
  }

  /** The two tables deep-merged namespace by namespace. */
  function MergeTables(a: Table, b: Table): (r: Table)
    ensures r.Keys == a.Keys + b.Keys
  {
    map n | n in a.Keys + b.Keys ::
      if n in a && n in b then DeepMerge(a[n], b[n]) else if n in b then b[n] else a[n]
  }

  /** Merging two tables keeps every namespace of both. A namespace only the
    * first holds is kept as it is; in every other namespace the second
    * table's settings all survive, and where both hold the namespace the
    * first table's settings survive wherever the second does not replace them. */
  lemma MergeTablesSpec(a: Table, b: Table)
    ensures var r := MergeTables(a, b);
      (forall n :: n in a && n !in b ==> r[n] == a[n]) &&
      (forall n :: n in b ==> Covers(r[n], b[n])) &&
      (forall n :: n in a && n in b ==> Retains(r[n], a[n], b[n]))
  {
    var r := MergeTables(a, b);
    forall n | n in b ensures Covers(r[n], b[n]) {
      if n in a {
        DeepMergeCoversSecond(a[n], b[n]);
      } else {
        CoversItself(b[n]);
      }
    }
    forall n | n in a && n in b ensures Retains(r[n], a[n], b[n]) {
      DeepMergeRetainsFirst(a[n], b[n]);
    }
  }

  /** The generators shell: coloured output, or the basic one. */
  datatype Shell = Color | Basic

  /** The process-wide generators registry. */
  datatype Registry = Registry(options: Table, aliases: Table, shell: Shell)

  /** `initialize_generators`: switches the shell to the basic one when
    * colourised logging is off, and deep-merges the configured aliases and
    * options into the registry's. */
  function InitializeGenerators(registry: Registry, configured: Tables, colorizeLogging: bool): (r: Registry)
    ensures !colorizeLogging ==> r.shell == Basic
    ensures colorizeLogging ==> r.shell == registry.shell
    ensures r.options.Keys == registry.options.Keys + configured.options.Keys
    ensures r.aliases.Keys == registry.aliases.Keys + configured.aliases.Keys
  {
    Registry(MergeTables(registry.options, configured.options),
             MergeTables(registry.aliases, configured.aliases),
             if colorizeLogging then registry.shell else Basic)
  }

  /** After `initialize_generators`, the registry holds every configured
    * setting, and every setting of its own that configuration does not
    * replace: whole namespaces nobody configured, and, inside a configured
    * namespace, each of its settings the configuration does not name (nested
    * hashes are merged, not replaced). */
  lemma InitializeGeneratorsPublishes(registry: Registry, configured: Tables, colorizeLogging: bool, n: Value)
    ensures var r := InitializeGenerators(registry, configured, colorizeLogging);
      (n in configured.options ==> Covers(r.options[n], configured.options[n])) &&
      (n in configured.aliases ==> Covers(r.aliases[n], configured.aliases[n])) &&
      (n in registry.options && n !in configured.options ==> r.options[n] == registry.options[n]) &&
      (n in registry.aliases && n !in configured.aliases ==> r.aliases[n] == registry.aliases[n]) &&
      (n in registry.options && n in configured.options ==>
        Retains(r.options[n], registry.options[n], configured.options[n])) &&
      (n in registry.aliases && n in configured.aliases ==>
        Retains(r.aliases[n], registry.aliases[n], configured.aliases[n]))
  {
    MergeTablesSpec(registry.options, configured.options);
    MergeTablesSpec(registry.aliases, configured.aliases);
  }

  /** In particular a registry setting inside a configured namespace that the
    * configuration does not name keeps its value. */
  lemma RegistrySettingSurvives(registry: Registry, configured: Tables, colorizeLogging: bool, n: Value, setting: string)
    requires n in registry.options && n in configured.options
    requires setting in registry.options[n] && setting !in configured.options[n]
    ensures var r := InitializeGenerators(registry, configured, colorizeLogging);
      setting in r.options[n] && r.options[n][setting] == registry.options[n][setting]
  {
    InitializeGeneratorsPublishes(registry, configured, colorizeLogging, n);
  }
}
