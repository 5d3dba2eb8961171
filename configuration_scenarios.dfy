/**
 * The outcomes the initializer's tests assert about the configuration:
 * framework paths and framework requirements, generators settings and their
 * publication, after_initialize blocks, the I18n load path and default
 * locale, the database middleware calls and the view paths, and plugin
 * loading through the configuration. Each method drives a fresh
 * configuration the way the corresponding test does.
 */
module ConfigurationScenarios {
  import opened Wrappers
  import Frameworks
  import opened GeneratorsConfiguration
  import opened Initializer
  import DatabaseMiddleware
  import Plugins
  import Scenarios

  // ---------------------------------------------------------------------------
  // Framework paths
  // ---------------------------------------------------------------------------

  /** With the frameworks cleared, `framework_paths` is the three base paths. */
  method MinimalFrameworkPaths(root: string) returns (paths: seq<string>)
    ensures paths == [Frameworks.Under(root, "railties"), Frameworks.Under(root, "railties/lib"),
                      Frameworks.Under(root, "activesupport/lib")]
  {
    var config := new Configuration(root, [], None);
    config.ClearFrameworks();
    paths := config.FrameworkPaths();
    Frameworks.MinimalFrameworkPaths(root);
  }

  /** `frameworks << :action_controller`, and then `frameworks = [:action_view]`:
    * both put `actionpack/lib` on the path. */
  method ControllerOrViewAddsActionPack(root: string) returns (withController: seq<string>, withView: seq<string>)
    ensures Frameworks.Under(root, "actionpack/lib") in withController
    ensures Frameworks.Under(root, "actionpack/lib") in withView
  {
    var config := new Configuration(root, [], None);
    config.ClearFrameworks();
    config.AppendFramework(Frameworks.ActionController);
    withController := config.FrameworkPaths();
    Frameworks.ActionPackPathIffControllerOrView(root, config.frameworks);
    config.SetFrameworks([Frameworks.ActionView]);
    withView := config.FrameworkPaths();
    Frameworks.ActionPackPathIffControllerOrView(root, config.frameworks);
  }

  /** `frameworks = [f]` for each of the record, mailer, resource and
    * web-service frameworks: the path then holds the framework's name without
    * its underscores, followed by `/lib`. */
  lemma PathsForLibraryFrameworks(root: string, i: nat)
    requires i < |Frameworks.NamedLibraryDirs|
    ensures var f := Frameworks.NamedLibraryDirs[i].0;
      Frameworks.Under(root, Frameworks.StripUnderscores(f) + "/lib") in Frameworks.FrameworkPaths(root, [f])
  {
    var entry := Frameworks.NamedLibraryDirs[i];
    Frameworks.LibraryPathIffActive(root, [entry.0], entry.0, entry.1);
  }

  /** `frameworks << :action_foo`: requiring the frameworks raises a
    * RuntimeError naming the unknown one. */
  method UnknownFrameworkRaises(root: string) returns (outcome: Outcome<Frameworks.RequireError>)
    ensures outcome == Fail(Frameworks.RuntimeError("action_foo"))
  {
    var config := new Configuration(root, [], None);
    config.ClearFrameworks();
    config.AppendFramework("action_foo");
    var unknown := "action_foo";
    assert unknown !in Frameworks.KnownFrameworks by {
      assert |unknown| == 10;
    }
    outcome := Frameworks.RequireFrameworks(config.frameworks);
  }

  /** With only the controller framework, or none, requiring succeeds and
    * `load_view_paths` reloads nothing, the mailer's view paths included. */
  method ViewPathsWithoutMailerOrController(root: string) returns (onlyController: seq<Frameworks.ViewPathOwner>, none: seq<Frameworks.ViewPathOwner>)
    ensures onlyController == [] && none == []
  {
    var config := new Configuration(root, [], None);
    config.SetFrameworks([Frameworks.ActionController]);
    onlyController := Frameworks.LoadViewPaths(config.frameworks);
    config.SetFrameworks([]);
    none := Frameworks.LoadViewPaths(config.frameworks);
  }

  lemma ControllerAloneIsRequired()
    ensures Frameworks.RequireFrameworks([Frameworks.ActionController]) == Pass
    ensures Frameworks.RequireFrameworks([]) == Pass
  {
  }

  /** `frameworks -= [:action_view]` from view, controller and mailer: no view
    * paths are reloaded. */
  method ViewPathsNeedTheViewFramework(root: string) returns (reloaded: seq<Frameworks.ViewPathOwner>)
    ensures reloaded == []
  {
    var config := new Configuration(root, [], None);
    config.SetFrameworks([Frameworks.ActionView, Frameworks.ActionController, Frameworks.ActionMailer]);
    config.RemoveFrameworks([Frameworks.ActionView]);
    reloaded := Frameworks.LoadViewPaths(config.frameworks);
  }

  // ---------------------------------------------------------------------------
  // Plugin loading through the configuration
  // ---------------------------------------------------------------------------

  /** The plugin tests' setup (`frameworks -= [:action_mailer]`, then the
    * fixtures' search path appended), `plugins = []`, then `load_plugins`:
    * nothing is loaded and nothing fails, and the setup's frameworks and
    * search path are still in place afterwards. */
  method EmptyPluginListLoadsNothing(root: string, fixturePath: string)
    returns (outcome: Outcome<LoadError>, loaded: seq<string>, frameworks: seq<Frameworks.Framework>, searchPaths: seq<string>)
    ensures outcome == Pass && loaded == []
    ensures frameworks == Without(Frameworks.DefaultFrameworks, [Frameworks.ActionMailer])
    ensures Frameworks.ActionMailer !in frameworks
    ensures searchPaths == [fixturePath]
  {
    var config := new Configuration(root, [], None);
    config.RemoveFrameworks([Frameworks.ActionMailer]);
    config.AddPluginPath(fixturePath);
    config.SetPlugins([]);
    Scenarios.FixtureLayoutDiscoveredInNameOrder();
    Scenarios.EmptyListLoadsNothing();
    outcome := LoadPlugins(config, [Scenarios.FixtureLayout]);
    loaded, frameworks, searchPaths := config.loadedPlugins, config.frameworks, config.pluginPaths;
  }

  /** Two valid and two unknown plugins: the valid ones are recorded in
    * order, and the error names exactly the unknown ones. */
  method LoadErrorKeepsValidPluginsLoaded(root: string, fixturePath: string) returns (outcome: Outcome<LoadError>, loaded: seq<string>)
    ensures loaded == [Scenarios.Stubby, Scenarios.ActsAsChunkyBacon]
    ensures outcome == Fail(LoadError([Scenarios.NonExistantPlugin1, Scenarios.NonExistantPlugin2]))
  {
    var config := new Configuration(root, [], None);
    config.AddPluginPath(fixturePath);
    config.SetPlugins([Scenarios.S(Scenarios.Stubby), Scenarios.S(Scenarios.ActsAsChunkyBacon),
                       Scenarios.S(Scenarios.NonExistantPlugin1), Scenarios.S(Scenarios.NonExistantPlugin2)]);
    Scenarios.FixtureLayoutDiscoveredInNameOrder();
    Scenarios.LoadErrorNamesTheMissingPluginsOnly();
    outcome := LoadPlugins(config, [Scenarios.FixtureLayout]);
    loaded := config.loadedPlugins;
    var missing := [Plugins.Symbol(Scenarios.NonExistantPlugin1), Plugins.Symbol(Scenarios.NonExistantPlugin2)];
    assert NamesOf(missing) == [Scenarios.NonExistantPlugin1, Scenarios.NonExistantPlugin2];
  }

  // ---------------------------------------------------------------------------
  // Generators
  // ---------------------------------------------------------------------------

  /** A new configuration's generators: colourised, both tables empty. */
  method GeneratorsDefaults(root: string) returns (colorize: bool, aliases: Table, options: Table)
    ensures colorize && aliases == map[] && options == map[]
  {
    var config := new Configuration(root, [], None);
    colorize, aliases, options := config.generators.colorizeLogging, config.generators.aliases, config.generators.options;
  }

  /** `orm = :datamapper` and `test_framework = :rspec` both land under `:rails`. */
  method SetRailsOptions() returns (options: Table)
    ensures options == map[Rails := map["orm" := Sym("datamapper"), "test_framework" := Sym("rspec")]]
  {
    var g := new Generators();
    var orm, testFramework := "orm=", "test_framework=";
    assert SettingName(orm) == "orm" && SettingName(testFramework) == "test_framework";
    assert !IsAccessor(orm) && !IsAccessor(testFramework) by {
      assert |orm| == 4 && |testFramework| == 15;
    }
    BareSettingGoesUnderRails(g.Snapshot(), orm, Sym("datamapper"));
    var raised := g.Send(orm, [Sym("datamapper")]);
    BareSettingGoesUnderRails(g.Snapshot(), testFramework, Sym("rspec"));
    raised := g.Send(testFramework, [Sym("rspec")]);
    options := g.options;
  }

  /** `aliases = { :rails => { :test_framework => "-w" } }` is kept as given. */
  method SetRailsAliases() returns (aliases: Table)
    ensures aliases == map[Rails := map["test_framework" := Str("-w")]]
  {
    var g := new Generators();
    g.SetAliases(map[Rails := map["test_framework" := Str("-w")]]);
    aliases := g.aliases;
  }

  /** `rails :aliases => { :test_framework => "-w" }`, `orm :datamapper`,
    * `test_framework :rspec`, then `initialize_generators`: the registry
    * holds the `:rails` option and alias for the test framework, whatever it
    * held before. */
  method AliasesAndOptionsOnInitialization(registry: Registry) returns (r: Registry)
    ensures Rails in r.options && "test_framework" in r.options[Rails] && r.options[Rails]["test_framework"] == Sym("rspec")
    ensures Rails in r.aliases && "test_framework" in r.aliases[Rails] && r.aliases[Rails]["test_framework"] == Str("-w")
  {
    var g := new Generators();
    var rails, orm, testFramework := "rails", "orm", "test_framework";
    assert !IsAccessor(rails) && !IsAccessor(orm) && !IsAccessor(testFramework) by {
      assert |rails| == 5 && |orm| == 3 && |testFramework| == 14;
    }
    assert SettingName(rails) == "rails" && SettingName(orm) == "orm" && SettingName(testFramework) == "test_framework";
    var wflag := map["test_framework" := Str("-w")];
    AliasesKeyGoesToAliases(g.Snapshot(), rails, wflag, map[]);
    assert map[][AliasesKey := Hash(wflag)] == map["aliases" := Hash(wflag)];
    var raised := g.Send(rails, [Hash(map["aliases" := Hash(wflag)])]);
    assert map[] + wflag == wflag;
    assert g.aliases == map[Rails := wflag];
    BareSettingGoesUnderRails(g.Snapshot(), orm, Sym("datamapper"));
    raised := g.Send(orm, [Sym("datamapper")]);
    BareSettingGoesUnderRails(g.Snapshot(), testFramework, Sym("rspec"));
    raised := g.Send(testFramework, [Sym("rspec")]);
    assert g.options[Rails][testFramework] == Sym("rspec");
    assert g.aliases[Rails][testFramework] == Str("-w");
    r := InitializeGenerators(registry, g.Snapshot(), g.colorizeLogging);
    InitializeGeneratorsPublishes(registry, g.Snapshot(), g.colorizeLogging, Rails);
  }

  /** `colorize_logging = false`, then `initialize_generators`: the basic shell. */
  method NoColorOnInitialization(registry: Registry) returns (shell: Shell)
    ensures shell == Basic
  {
    var g := new Generators();
    g.SetColorizeLogging(false);
    var r := InitializeGenerators(registry, g.Snapshot(), g.colorizeLogging);
    shell := r.shell;
  }

  const DatamapperOptions: Table :=
    map[Rails := map["orm" := Sym("datamapper")], Sym("datamapper") := map["migration" := Bool(false)]]

  /** `orm :datamapper, :migration => false` on an empty builder. */
  lemma OrmWithMigrationOff()
    ensures MethodMissing(Tables(map[], map[]), "orm", [Sym("datamapper"), Hash(map["migration" := Bool(false)])])
      == Reply(Tables(DatamapperOptions, map[]), false)
  {
    var orm, datamapper := "orm", Sym("datamapper");
    assert SettingName(orm) == "orm";
    assert datamapper != Rails by {
      assert |datamapper.name| != |Rails.name|;
    }
    var t := Tables(map[], map[]);
    HashSettingGoesUnderValueNamespace(t, orm, datamapper, map["migration" := Bool(false)]);
    var r := MethodMissing(t, orm, [datamapper, Hash(map["migration" := Bool(false)])]);
    assert map[] + map["migration" := Bool(false)] == map["migration" := Bool(false)];
    assert r.tables.options.Keys == {Rails, datamapper};
    assert r.tables.options[Rails] == map["orm" := datamapper];
  }

  /** Then `plugin :aliases => { :generator => "-g" }, :generator => true`. */
  lemma PluginWithAliases()
    ensures MethodMissing(Tables(DatamapperOptions, map[]), "plugin",
                          [Hash(map["aliases" := Hash(map["generator" := Str("-g")]), "generator" := Bool(true)])])
      == Reply(Tables(DatamapperOptions[Sym("plugin") := map["generator" := Bool(true)]],
                      map[Sym("plugin") := map["generator" := Str("-g")]]), false)
  {
    var plugin, pluginNs := "plugin", Sym("plugin");
    assert SettingName(plugin) == "plugin";
    var gflag := map["generator" := Str("-g")];
    var settings := map["generator" := Bool(true)];
    var t := Tables(DatamapperOptions, map[]);
    AliasesKeyGoesToAliases(t, plugin, gflag, settings);
    assert settings[AliasesKey := Hash(gflag)] == map["aliases" := Hash(gflag), "generator" := Bool(true)];
    assert pluginNs != Rails && pluginNs != Sym("datamapper") by {
      assert |pluginNs.name| == 6;
    }
    assert At(DatamapperOptions, pluginNs) == map[] && At(map[], pluginNs) == map[];
    assert map[] + settings == settings && map[] + gflag == gflag;
  }

  /** `orm :datamapper, :migration => false` and
    * `plugin :aliases => { :generator => "-g" }, :generator => true`: the
    * value goes under `:rails` and the hash under the value's namespace; the
    * `:aliases` entry goes to the aliases table, the rest to the options. */
  method HashesForOptionsAndAliases() returns (options: Table, aliases: Table)
    ensures options == map[Rails := map["orm" := Sym("datamapper")],
                           Sym("plugin") := map["generator" := Bool(true)],
                           Sym("datamapper") := map["migration" := Bool(false)]]
    ensures aliases == map[Sym("plugin") := map["generator" := Str("-g")]]
  {
    var g := new Generators();
    var orm, plugin := "orm", "plugin";
    assert !IsAccessor(orm) && !IsAccessor(plugin) by {
      assert |orm| == 3 && |plugin| == 6;
    }
    OrmWithMigrationOff();
    var raised := g.Send(orm, [Sym("datamapper"), Hash(map["migration" := Bool(false)])]);
    PluginWithAliases();
    raised := g.Send(plugin, [Hash(map["aliases" := Hash(map["generator" := Str("-g")]), "generator" := Bool(true)])]);
    options, aliases := g.options, g.aliases;
  }

  /** The same settings, then `initialize_generators`: the registry has at
    * least one namespace of options and one of aliases. */
  method HashesAreDeepMerged(registry: Registry) returns (r: Registry)
    ensures |r.aliases| >= 1 && |r.options| >= 1
  {
    var options, aliases := HashesForOptionsAndAliases();
    r := InitializeGenerators(registry, Tables(options, aliases), true);
    assert Sym("plugin") in r.aliases.Keys && Sym("plugin") in r.options.Keys;
  }

  // ---------------------------------------------------------------------------
  // after_initialize
  // ---------------------------------------------------------------------------

  const Block1: string := "test_after_initialize_block1"
  const Block2: string := "test_after_initialize_block2"

  /** Two blocks, then the step with the gem dependencies loaded: both ran. */
  method AfterInitializeWithBlocks(root: string) returns (globals: Globals)
    ensures Block1 in globals && globals[Block1] == "success"
    ensures Block2 in globals && globals[Block2] == "congratulations"
  {
    var config := new Configuration(root, [], None);
    config.AfterInitialize(Some(SetGlobal(Block1, "success")));
    config.AfterInitialize(Some(SetGlobal(Block2, "congratulations")));
    var b1, b2 := Block1, Block2;
    assert b1 != b2 by {
      assert b1[27] != b2[27];
    }
    globals := RunAfterInitialize(config, true, map[]);
    DistinctBlocksBothTakeEffect(SetGlobal(Block1, "success"), SetGlobal(Block2, "congratulations"), map[]);
  }

  /** A call without a block between the two: it is not kept, and both
    * blocks still ran. */
  method AfterInitializeWithNoBlock(root: string) returns (kept: nat, globals: Globals)
    ensures kept == 2
    ensures Block1 in globals && globals[Block1] == "success"
    ensures Block2 in globals && globals[Block2] == "congratulations"
  {
    var config := new Configuration(root, [], None);
    config.AfterInitialize(Some(SetGlobal(Block1, "success")));
    config.AfterInitialize(None);
    config.AfterInitialize(Some(SetGlobal(Block2, "congratulations")));
    kept := |config.afterInitializeBlocks|;
    var b1, b2 := Block1, Block2;
    assert b1 != b2 by {
      assert b1[27] != b2[27];
    }
    globals := RunAfterInitialize(config, true, map[]);
    DistinctBlocksBothTakeEffect(SetGlobal(Block1, "success"), SetGlobal(Block2, "congratulations"), map[]);
  }

  // ---------------------------------------------------------------------------
  // I18n
  // ---------------------------------------------------------------------------

  /** Without a `config/locales` directory the load path is empty. */
  method NoLocalesDirectoryEmptyLoadPath(root: string) returns (loadPath: seq<string>)
    ensures loadPath == []
  {
    var config := new Configuration(root, [], None);
    loadPath := config.i18nLoadPath;
  }

  /** With one, its files are the load path. */
  method LocalesDirectoryAddedToLoadPath(root: string) returns (loadPath: seq<string>)
    ensures loadPath == ["my/test/locale.yml"]
  {
    var config := new Configuration(root, [], Some(["my/test/locale.yml"]));
    loadPath := config.i18nLoadPath;
  }

  /** `i18n.load_path << "my/other/locale.yml"` comes after the discovered file. */
  method AppendedPathsComeAfterDiscovered(root: string) returns (loadPath: seq<string>)
    ensures loadPath == ["my/test/locale.yml", "my/other/locale.yml"]
  {
    var config := new Configuration(root, [], Some(["my/test/locale.yml"]));
    config.AppendI18nLoadPath("my/other/locale.yml");
    loadPath := config.i18nLoadPath;
  }

  /** `initialize_i18n`: the frameworks' and plugins' locale files already on
    * the process-wide path stay first, the configured files follow. */
  method I18nLoadPathAfterInitialization(root: string, state: I18nState) returns (r: I18nState)
    ensures r.loadPath == state.loadPath + ["my/test/locale.yml", "my/other/locale.yml"]
    ensures r.defaultLocale == state.defaultLocale
  {
    var config := new Configuration(root, [], Some(["my/test/locale.yml"]));
    config.AppendI18nLoadPath("my/other/locale.yml");
    r := InitializeI18n(state, config.i18nLoadPath, config.i18nDefaultLocale);
  }

  /** `i18n.default_locale = :de`, then `initialize_i18n`. */
  method SettingAnotherDefaultLocale(root: string, state: I18nState) returns (r: I18nState)
    ensures r.defaultLocale == "de"
  {
    var config := new Configuration(root, [], None);
    config.SetDefaultLocale("de");
    r := InitializeI18n(state, config.i18nLoadPath, config.i18nDefaultLocale);
  }

  // ---------------------------------------------------------------------------
  // Database middleware
  // ---------------------------------------------------------------------------

  const CookieStore: string := "ActionDispatch::Session::CookieStore"

  /** With the frameworks cleared the step makes no call on the stack. */
  method NoRecordLayerTouchesNothing(root: string, sessionStore: string) returns (calls: seq<DatabaseMiddleware.Call>)
    ensures calls == []
  {
    var config := new Configuration(root, [], None);
    config.SetFrameworks([Frameworks.ActiveRecord, Frameworks.ActionController, Frameworks.ActionView]);
    config.ClearFrameworks();
    calls := DatabaseMiddleware.Calls(config.frameworks, sessionStore);
  }

  /** Record, controller and view frameworks with the record session store:
    * two insertions before it. */
  method RecordSessionStoreInsertsBeforeIt(root: string) returns (calls: seq<DatabaseMiddleware.Call>)
    ensures calls == [DatabaseMiddleware.InsertBefore(DatabaseMiddleware.ActiveRecordSessionStore, DatabaseMiddleware.ConnectionManagement),
                      DatabaseMiddleware.InsertBefore(DatabaseMiddleware.ActiveRecordSessionStore, DatabaseMiddleware.QueryCache)]
  {
    var config := new Configuration(root, [], None);
    config.SetFrameworks([Frameworks.ActiveRecord, Frameworks.ActionController, Frameworks.ActionView]);
    calls := DatabaseMiddleware.Calls(config.frameworks, DatabaseMiddleware.ActiveRecordSessionStore);
  }

  /** The cookie session store: two appends. */
  method OtherSessionStoreAppends(root: string) returns (calls: seq<DatabaseMiddleware.Call>)
    ensures calls == [DatabaseMiddleware.Use(DatabaseMiddleware.ConnectionManagement),
                      DatabaseMiddleware.Use(DatabaseMiddleware.QueryCache)]
  {
    var config := new Configuration(root, [], None);
    config.SetFrameworks([Frameworks.ActiveRecord, Frameworks.ActionController, Frameworks.ActionView]);
    var cookie, record := CookieStore, DatabaseMiddleware.ActiveRecordSessionStore;
    assert cookie != record by {
      assert |cookie| != |record|;
    }
    calls := DatabaseMiddleware.Calls(config.frameworks, cookie);
  }

  /** `frameworks -= [:action_controller]` with the record session store:
    * two appends, not insertions. */
  method WithoutControllerAppends(root: string) returns (calls: seq<DatabaseMiddleware.Call>)
    ensures calls == [DatabaseMiddleware.Use(DatabaseMiddleware.ConnectionManagement),
                      DatabaseMiddleware.Use(DatabaseMiddleware.QueryCache)]
  {
    var config := new Configuration(root, [], None);
    config.SetFrameworks([Frameworks.ActiveRecord, Frameworks.ActionController, Frameworks.ActionView]);
    config.RemoveFrameworks([Frameworks.ActionController]);
    var record, controller, view := Frameworks.ActiveRecord, Frameworks.ActionController, Frameworks.ActionView;
    assert record != controller && view != controller by {
      assert |record| == 13 && |controller| == 17 && |view| == 11;
    }
    assert record in config.frameworks && controller !in config.frameworks;
    calls := DatabaseMiddleware.Calls(config.frameworks, DatabaseMiddleware.ActiveRecordSessionStore);
  }
}
