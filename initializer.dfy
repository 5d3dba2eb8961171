/**
 * The configuration object the initializer reads, and the initializer steps
 * that act on it: `load_plugins`, `after_initialize` and `initialize_i18n`.
 * The steps that only compute from the configuration live beside their data
 * (framework paths in `Frameworks`, plugin order in `Plugins`, generators in
 * `GeneratorsConfiguration`, the database middleware in `DatabaseMiddleware`).
 */
module Initializer {
  import opened Wrappers
  import Frameworks
  import Plugins
  import GeneratorsConfiguration

  /** An `after_initialize` block. The blocks the initializer runs assign a
    * string to a global variable; that is the effect modelled. */
  datatype Block = SetGlobal(global: string, value: string)

  /** The global variables that are set; an absent name is `nil`. */
  type Globals = map<string, string>

  /** One block run. */
  function Execute(globals: Globals, block: Block): Globals {
    globals[block.global := block.value]
  }

  /** The blocks run one after the other, in order. */
  function RunBlocks(blocks: seq<Block>, globals: Globals): Globals
    decreases |blocks|
  {
    if |blocks| == 0 then globals
    else Execute(RunBlocks(blocks[..|blocks| - 1], globals), blocks[|blocks| - 1])
  }

  /** The value the last block assigning `global` gives it, if one does. */
  function LastAssigned(blocks: seq<Block>, global: string): (r: Option<string>)
    ensures r.None? <==> forall i :: 0 <= i < |blocks| ==> blocks[i].global != global
    decreases |blocks|
  {
    if |blocks| == 0 then None
    else if blocks[|blocks| - 1].global == global then Some(blocks[|blocks| - 1].value)
    else
      var r := LastAssigned(blocks[..|blocks| - 1], global);
      assert forall i :: 0 <= i < |blocks| - 1 ==> blocks[..|blocks| - 1][i] == blocks[i];
      r
  }

  /** The value found is the one the last block assigning the global gives:
    * some block assigns it, and no later block assigns that global. */
  lemma {:induction false} LastAssignedIsLast(blocks: seq<Block>, global: string)
    ensures LastAssigned(blocks, global).Some? ==>
      exists i :: 0 <= i < |blocks| && blocks[i] == SetGlobal(global, LastAssigned(blocks, global).value) &&
                  forall j :: i < j < |blocks| ==> blocks[j].global != global
    decreases |blocks|
  {
    if |blocks| > 0 && blocks[|blocks| - 1].global != global {
      var init := blocks[..|blocks| - 1];
      LastAssignedIsLast(init, global);
      if LastAssigned(init, global).Some? {
        var i :| 0 <= i < |init| && init[i] == SetGlobal(global, LastAssigned(init, global).value) &&
                 forall j :: i < j < |init| ==> init[j].global != global;
        assert blocks[i] == init[i];
        assert forall j :: i < j < |blocks| - 1 ==> blocks[j] == init[j];
      }
    } else if |blocks| > 0 {
      assert blocks[|blocks| - 1] == SetGlobal(global, LastAssigned(blocks, global).value);
    }
  }

  /** Running blocks in registration order leaves each global with the value
    * the last block assigning it gave, and every other global as it was. */
  lemma {:induction false} RunBlocksLastAssignmentWins(blocks: seq<Block>, globals: Globals, global: string)
    ensures var r := RunBlocks(blocks, globals);
      match LastAssigned(blocks, global)
      case Some(v) => global in r && r[global] == v
      case None => (global in r <==> global in globals) && (global in globals ==> r[global] == globals[global])
    decreases |blocks|
  {
    if |blocks| > 0 {
      RunBlocksLastAssignmentWins(blocks[..|blocks| - 1], globals, global);
    }
  }

  /** Two blocks assigning different globals both take effect, whatever the order. */
  lemma DistinctBlocksBothTakeEffect(b1: Block, b2: Block, globals: Globals)
    requires b1.global != b2.global
    ensures var r := RunBlocks([b1, b2], globals);
      b1.global in r && r[b1.global] == b1.value && b2.global in r && r[b2.global] == b2.value
  {
    assert [b1, b2][..1] == [b1];
    assert [b1][..0] == [];
  }

  /** Ruby's `array - other`: every element of `other` removed, the rest kept in order. */
  function Without(s: seq<Frameworks.Framework>, removed: seq<Frameworks.Framework>): (r: seq<Frameworks.Framework>)
    ensures forall f :: f in r <==> f in s && f !in removed
    ensures |r| <= |s|
  {
    if |s| == 0 then []
    else (if s[0] in removed then [] else [s[0]]) + Without(s[1..], removed)
  }

  /** Removal keeps the order of what remains: removing from two lists
    * joined is removing from each and joining the results. */
  lemma {:induction false} WithoutAppend(s: seq<Frameworks.Framework>, t: seq<Frameworks.Framework>, removed: seq<Frameworks.Framework>)
    ensures Without(s + t, removed) == Without(s, removed) + Without(t, removed)
    decreases |s|
  {
    if |s| == 0 {
      assert s + t == t;
    } else {
      assert (s + t)[0] == s[0] && (s + t)[1..] == s[1..] + t;
      WithoutAppend(s[1..], t, removed);
    }
  }

  /** Removing frameworks a list does not hold leaves it as it is. */
  lemma {:induction false} WithoutAbsentKeeps(s: seq<Frameworks.Framework>, removed: seq<Frameworks.Framework>)
    requires forall f :: f in s ==> f !in removed
    ensures Without(s, removed) == s
    decreases |s|
  {
    if |s| > 0 {
      WithoutAbsentKeeps(s[1..], removed);
      assert s == [s[0]] + s[1..];
    }
  }

  /** The error `load_plugins` raises, naming every plugin it could not find. */
  datatype LoadError = LoadError(missing: seq<string>)

  /** The process-wide I18n state: its load path and its default locale. */
  datatype I18nState = I18nState(loadPath: seq<string>, defaultLocale: string)

  /** The fields of a configuration as one value, so that a mutator can say
    * which field it changes and that every other one stays as it was. */
  datatype ConfigState = ConfigState(
    frameworks: seq<Frameworks.Framework>,
    frameworkRootPath: string,
    pluginPaths: seq<string>,
    plugins: Option<seq<Plugins.Entry>>,
    loadedPlugins: seq<string>,
    afterInitializeBlocks: seq<Block>,
    i18nLoadPath: seq<string>,
    i18nDefaultLocale: Option<string>)

  /** The startup configuration. */
  class Configuration {
    var frameworks: seq<Frameworks.Framework>
    var frameworkRootPath: string
    var pluginPaths: seq<string>
    /** The selection list (`plugins = [...]`); `None` is the untouched default. */
    var plugins: Option<seq<Plugins.Entry>>
    var loadedPlugins: seq<string>
    var afterInitializeBlocks: seq<Block>
    var i18nLoadPath: seq<string>
    var i18nDefaultLocale: Option<string>
    const generators: GeneratorsConfiguration.Generators

    /** A new configuration. `configLocales` is the listing of the
      * application's `config/locales` files, `None` when that directory does
      * not exist; the I18n load path starts as that listing. */
    constructor (frameworkRoot: string, searchPaths: seq<string>, configLocales: Option<seq<string>>)
      ensures frameworks == Frameworks.DefaultFrameworks
      ensures frameworkRootPath == frameworkRoot && pluginPaths == searchPaths
      ensures plugins == None && loadedPlugins == [] && afterInitializeBlocks == []
      ensures i18nLoadPath == (if configLocales.Some? then configLocales.value else [])
      ensures i18nDefaultLocale == None
      ensures fresh(generators)
      ensures generators.options == map[] && generators.aliases == map[] && generators.colorizeLogging
    {
      frameworks := Frameworks.DefaultFrameworks;
      frameworkRootPath := frameworkRoot;
      pluginPaths := searchPaths;
      plugins := None;
      loadedPlugins := [];
      afterInitializeBlocks := [];
      i18nLoadPath := if configLocales.Some? then configLocales.value else [];
      i18nDefaultLocale := None;
      generators := new GeneratorsConfiguration.Generators();
    }

    /** Every field the mutators below may change. */
    function State(): ConfigState
      reads this
    {
      ConfigState(frameworks, frameworkRootPath, pluginPaths, plugins, loadedPlugins,
                  afterInitializeBlocks, i18nLoadPath, i18nDefaultLocale)
    }

    /** `framework_paths`, recomputed from the current frameworks and root. */
    function FrameworkPaths(): (r: seq<string>)
      reads this
      ensures |r| >= 3
    {
      Frameworks.FrameworkPaths(frameworkRootPath, frameworks)
    }

    /** `frameworks = [...]`. */
    method SetFrameworks(fs: seq<Frameworks.Framework>)
      modifies this
      ensures State() == old(State()).(frameworks := fs)
    {
      frameworks := fs;
    }

    /** `frameworks << f`. */
    method AppendFramework(f: Frameworks.Framework)
      modifies this
      ensures State() == old(State()).(frameworks := old(frameworks) + [f])
    {
      frameworks := frameworks + [f];
    }

    /** `frameworks.clear`. */
    method ClearFrameworks()
      modifies this
      ensures State() == old(State()).(frameworks := [])
    {
      frameworks := [];
    }

    /** `frameworks -= [...]`. */
    method RemoveFrameworks(removed: seq<Frameworks.Framework>)
      modifies this
      ensures State() == old(State()).(frameworks := Without(old(frameworks), removed))
    {
      frameworks := Without(frameworks, removed);
    }

    /** `plugin_paths << path`. */
    method AddPluginPath(path: string)
      modifies this
      ensures State() == old(State()).(pluginPaths := old(pluginPaths) + [path])
    {
      pluginPaths := pluginPaths + [path];
    }

    /** `plugins = [...]`. */
    method SetPlugins(selection: seq<Plugins.Entry>)
      modifies this
      ensures State() == old(State()).(plugins := Some(selection))
    {
      plugins := Some(selection);
    }

    /** `after_initialize { ... }`: the block is kept for later; a call
      * without a block keeps nothing. */
    method AfterInitialize(block: Option<Block>)
      modifies this
      ensures State() == old(State()).(afterInitializeBlocks :=
        old(afterInitializeBlocks) + (if block.Some? then [block.value] else []))
    {
      if block.Some? {
        afterInitializeBlocks := afterInitializeBlocks + [block.value];
      }
    }

    /** `i18n.load_path << path`. */
    method AppendI18nLoadPath(path: string)
      modifies this
      ensures State() == old(State()).(i18nLoadPath := old(i18nLoadPath) + [path])
    {
      i18nLoadPath := i18nLoadPath + [path];
    }

    /** `i18n.default_locale = locale`. */
    method SetDefaultLocale(locale: string)
      modifies this
      ensures State() == old(State()).(i18nDefaultLocale := Some(locale))
    {
      i18nDefaultLocale := Some(locale);
    }
  }

  /** The `after_initialize` step: when the gem dependencies are loaded, runs
    * every kept block, in registration order; otherwise runs none. Returns
    * the globals afterwards. */
  method RunAfterInitialize(config: Configuration, gemsLoaded: bool, globals: Globals) returns (r: Globals)
    ensures gemsLoaded ==> r == RunBlocks(config.afterInitializeBlocks, globals)
    ensures !gemsLoaded ==> r == globals
  {
    r := globals;
    if gemsLoaded {
      var blocks := config.afterInitializeBlocks;
      var i := 0;
      while i < |blocks|
        invariant 0 <= i <= |blocks|
        invariant r == RunBlocks(blocks[..i], globals)
      {
        assert blocks[..i + 1][..i] == blocks[..i];
        r := Execute(r, blocks[i]);
        i := i + 1;
      }
      assert blocks[..i] == blocks;
    }
  }

  /** Loads the located plugins one after the other, recording each in
    * `loaded_plugins` in order. */
  method RecordLoaded(config: Configuration, names: seq<string>)
    modifies config
    ensures config.State() == old(config.State()).(loadedPlugins := old(config.loadedPlugins) + names)
  {
    var i := 0;
    while i < |names|
      invariant 0 <= i <= |names|
      invariant config.State() == old(config.State()).(loadedPlugins := old(config.loadedPlugins) + names[..i])
    {
      assert names[..i + 1] == names[..i] + [names[i]];
      config.loadedPlugins := config.loadedPlugins + [names[i]];
      i := i + 1;
    }
    assert names[..i] == names;
  }

  /** The `load_plugins` step. `listings` holds, for each plugin search path
    * in order, the plugin directories found there. Each located plugin is
    * loaded and recorded in order; then, if any selected plugin was not
    * found, the step raises one error naming all of them. */
  method LoadPlugins(config: Configuration, listings: seq<seq<string>>) returns (outcome: Outcome<LoadError>)
    requires |listings| == |config.pluginPaths|
    modifies config
    ensures var located := Plugins.Locate(Plugins.Discover(listings), old(config.plugins));
      config.State() == old(config.State()).(loadedPlugins := old(config.loadedPlugins) + located.loaded) &&
      (outcome.Pass? <==> !located.Failed()) &&
      (outcome.Fail? ==> outcome.error.missing == NamesOf(located.missing))
  {
    var located := Plugins.Locate(Plugins.Discover(listings), config.plugins);
    RecordLoaded(config, located.loaded);
    if located.Failed() {
      outcome := Fail(LoadError(NamesOf(located.missing)));
    } else {
      outcome := Pass;
    }
  }

  /** The names of plugins, in order. */
  function NamesOf(ps: seq<Plugins.PluginName>): seq<string> {
    seq(|ps|, i requires 0 <= i < |ps| => ps[i].name)
  }

  /** The error `load_plugins` raises names exactly the selected plugins
    * that were not found, and none of the plugins it loaded. */
  lemma LoadErrorNamesOnlyMissing(discovered: seq<string>, selection: seq<Plugins.Entry>, name: string)
    ensures var located := Plugins.Locate(discovered, Some(selection));
      (name in NamesOf(located.missing) <==>
        (Plugins.Named(Plugins.Symbol(name)) in selection || Plugins.Named(Plugins.Text(name)) in selection) &&
        name !in discovered) &&
      (name in located.loaded ==> name !in NamesOf(located.missing))
  {
    var located := Plugins.Locate(discovered, Some(selection));
    if name in NamesOf(located.missing) {
      var i :| 0 <= i < |located.missing| && NamesOf(located.missing)[i] == name;
      assert located.missing[i] in located.missing;
      Plugins.MissingNamesExactlyTheAbsent(discovered, selection, located.missing[i]);
    }
    if Plugins.Named(Plugins.Symbol(name)) in selection && name !in discovered {
      Plugins.MissingNamesExactlyTheAbsent(discovered, selection, Plugins.Symbol(name));
      var i :| 0 <= i < |located.missing| && located.missing[i] == Plugins.Symbol(name);
      assert NamesOf(located.missing)[i] == name;
    }
    if Plugins.Named(Plugins.Text(name)) in selection && name !in discovered {
      Plugins.MissingNamesExactlyTheAbsent(discovered, selection, Plugins.Text(name));
      var i :| 0 <= i < |located.missing| && located.missing[i] == Plugins.Text(name);
      assert NamesOf(located.missing)[i] == name;
    }
  }

  /** The `initialize_i18n` step: the configured load path is appended to the
    * process-wide one (which already lists the frameworks' and plugins'
    * locale files), and a configured default locale replaces the current one. */
  function InitializeI18n(state: I18nState, loadPath: seq<string>, defaultLocale: Option<string>): (r: I18nState)
    ensures |r.loadPath| == |state.loadPath| + |loadPath|
    ensures r.loadPath[..|state.loadPath|] == state.loadPath
    ensures r.loadPath[|state.loadPath|..] == loadPath
    ensures defaultLocale.Some? ==> r.defaultLocale == defaultLocale.value
    ensures defaultLocale.None? ==> r.defaultLocale == state.defaultLocale
  {
    I18nState(state.loadPath + loadPath,
              if defaultLocale.Some? then defaultLocale.value else state.defaultLocale)
  }
}
