# Rails initializer configuration rules, in Dafny

This project models the startup configuration of a Rails application and the steps of the Rails
initializer that act on it. The rules are the ones fixed by `railties/test/initializer_test.rb`.
The production initializer (`rails/initializer`) is not part of this model, so its behaviour is
rebuilt from what the tests assert.

The model has these parts:

- `Plugins` (`plugins.dfy`): the plugin locator.
  - Plugins are discovered along the plugin search paths, each name once, sorted by name whatever
    order the directories are listed in.
  - An optional selection list (`config.plugins`) holds plugin names, as symbols or strings, and
    the `:all` wildcard.
  - The locator gives the ordered `loaded_plugins`, plus the selected plugins that no search path
    provides.
- `Frameworks` (`frameworks.dfy`): the framework list and what follows from it.
  - `framework_paths`.
  - `require_frameworks`, with its error for an unknown framework.
  - `load_view_paths`.
- `GeneratorsConfiguration` (`generators.dfy`): the generators builder.
  - The builder is a `Generators` class. It routes arbitrary setting calls (`method_missing`) into
    an options table and an aliases table, keyed by generator namespace.
  - `initialize_generators` deep-merges both tables into the process-wide registry and picks the
    generators shell.
- `Initializer` (`initializer.dfy`): the `Configuration` class with its mutating operations, and
  three initializer steps.
  - `after_initialize`, with its ordered list of blocks.
  - `load_plugins`, which records the located plugins and raises one LoadError for the missing ones.
  - `initialize_i18n`.
- `DatabaseMiddleware` (`middleware.dfy`): `initialize_database_middleware`. It covers both the
  calls the step makes on the middleware stack and their effect on that stack.
- `Scenarios` (`scenarios.dfy`) and `ConfigurationScenarios` (`configuration_scenarios.dfy`): every
  outcome of the tests modelled here, proved over the model (the tests left out are listed under
  "Left out"). The fixtures are the plugins `a`,
  `acts_as_chunky_bacon`, `engine`, `gemlike`, `plugin_with_no_lib_dir` and `stubby`, in name
  order. Their directories (`default/stubby`, `default/acts/acts_as_chunky_bacon`, `engines/engine`,
  lines 202 and 281-282, 409) are not in that order; discovery sorts them into it.
- `Wrappers` (`wrappers.dfy`): `Option` and `Outcome`.

Three choices of the model rest on what the tests fix:

- The database middleware step inserts before the session store only when the controller framework
  is active and the session store is the record-backed one. With the record-backed store but no
  controller framework it appends (test at lines 461-473).
- `:all` stands for the discovered plugins that the list names nowhere, not merely for those not
  yet loaded when `:all` is reached. A name listed after `:all` is therefore left out of the
  expansion and keeps its own later place (test at lines 233-239).
- A list with more than one `:all` is accepted: each `:all` expands to the same plugins, and every
  plugin is loaded once, at its first place. No test uses such a list.

## Model

| member | source | states |
|---|---|---|
| Plugins.Flatten | railties/test/initializer_test.rb:196-204 | The search paths' listings one after the other: a name is present exactly when some listing holds it |
| Plugins.Dedup | railties/test/initializer_test.rb:219-239 | Definition (first occurrence of each name, in order); its meaning is stated by `Plugins.DedupSpec` and `Plugins.DedupKeepsFirstOrder` |
| Plugins.NamedIn | railties/test/initializer_test.rb:225-239 | Definition of the names a selection list mentions; its meaning is stated by `Plugins.UnlistedSpec` (what `:all` leaves out) and `Plugins.NamedAroundAll` |
| Plugins.Contribution | railties/test/initializer_test.rb:225-239 | Definition of what one entry adds to the load order; its meaning is stated by `Plugins.ExpandAppend`, `Plugins.ExpandWithoutWildcard` and `Plugins.ExpandAround` |
| Plugins.Unlisted | railties/test/initializer_test.rb:225-239 | Definition of what `:all` stands for; its meaning is stated by `Plugins.UnlistedSpec` |
| Plugins.Expand | railties/test/initializer_test.rb:212-239 | Definition of the load order of a selection list, entry by entry; its meaning is stated by `Plugins.ExpandAppend`, `Plugins.ExpandWithoutWildcard`, `Plugins.ExpandAround` and `Plugins.ExpandWithin` |
| Plugins.Missing | railties/test/initializer_test.rb:249-274 | Definition of the names the LoadError reports; its meaning is stated by `Plugins.MissingSpec` |
| Plugins.Found | railties/test/initializer_test.rb:256-274 | Definition of the listed names some path provides; its meaning is stated by `Plugins.FoundAll` and `Plugins.ValidNamesStayLoaded` |
| Plugins.FirstIndex | railties/test/initializer_test.rb:225-239 | The position where a name occurs first: it holds the name and no earlier position does |
| Plugins.FirstIndexAppend | railties/test/initializer_test.rb:225-239 | Appending to a list does not move the first position of a name it already holds |
| Plugins.DedupSpec | railties/test/initializer_test.rb:225-239 | Deduplication gives no repeats and the same members as its input, and leaves a repeat-free list as it is |
| Plugins.DedupKeepsFirstOrder | railties/test/initializer_test.rb:225-239 | Deduplication keeps each name at its first place: the names of an expanded selection list are loaded in the order of their first occurrences |
| Plugins.DedupOrderStep | railties/test/initializer_test.rb:225-239 | One more name at the end keeps the deduplicated names in first-occurrence order |
| Plugins.NameBeforeIrreflexive | railties/test/initializer_test.rb:219-223 | No name sorts before itself |
| Plugins.NameBeforeTransitive | railties/test/initializer_test.rb:219-223 | Name order is transitive |
| Plugins.NameBeforeTotal | railties/test/initializer_test.rb:219-223 | Of two different names one sorts before the other |
| Plugins.InNameOrderNoDuplicates | railties/test/initializer_test.rb:219-223 | A list in strict name order has no repeats |
| Plugins.NeighboursInNameOrder | railties/test/initializer_test.rb:219-223 | A list whose neighbouring names are in name order is in name order throughout |
| Plugins.InNameOrderUnique | railties/test/initializer_test.rb:219-223 | Two lists in name order holding the same names are equal |
| Plugins.InsertByNameSpec | railties/test/initializer_test.rb:219-223 | Inserting a name into a list in name order keeps it in name order and adds exactly that name |
| Plugins.SortByName | railties/test/initializer_test.rb:219-223 | Definition of sorting by name (insertion, dropping repeats); its meaning is stated by `Plugins.SortByNameSpec` |
| Plugins.SortByNameSpec | railties/test/initializer_test.rb:219-223 | Sorting gives a list in name order holding exactly the input's names |
| Plugins.Discover | railties/test/initializer_test.rb:219-223 | The plugins found along the search paths are in name order, without repeats, and are exactly the plugins some search path lists |
| Plugins.DiscoverIgnoresListingOrder | railties/test/initializer_test.rb:219-223 | Search paths holding the same names, in whatever order, are discovered identically |
| Plugins.UnlistedSpec | railties/test/initializer_test.rb:233-239 | What `:all` stands for is exactly the discovered plugins that the list does not name anywhere, and it has no repeats when discovery has none |
| Plugins.MissingSpec | railties/test/initializer_test.rb:249-274 | The missing plugins are exactly the selected names that no search path provides |
| Plugins.Locate | railties/test/initializer_test.rb:206-274 | The loaded plugins have no repeats and are all discovered; every missing plugin is undiscovered; with no selection list every discovered plugin is loaded, in discovery order |
| Plugins.Names | railties/test/initializer_test.rb:212-217 | The names of a list without wildcards, one per entry and position by position |
| Plugins.ExpandWithin | railties/test/initializer_test.rb:225-239 | Expanding a selection list never produces a plugin that was not discovered |
| Plugins.ExpandAppend | railties/test/initializer_test.rb:225-239 | Expanding two concatenated lists gives the concatenation of their expansions, so each entry expands in place |
| Plugins.ExpandWithoutWildcard | railties/test/initializer_test.rb:212-217 | A list without `:all` expands to its discovered names, in listed order |
| Plugins.FoundAll | railties/test/initializer_test.rb:212-217 | When every listed name is discovered, the found names are the list itself |
| Plugins.NoneMissing | railties/test/initializer_test.rb:212-217 | When every named entry is discovered, nothing is missing |
| Plugins.NoDuplicatesAround | railties/test/initializer_test.rb:225-239 | Repeat-free names around a repeat-free block of names they exclude stay repeat-free once joined |
| Plugins.ExplicitListLoadsExactlyThatList | railties/test/initializer_test.rb:206-217 | An explicit list without `:all`, of distinct discovered names, loads exactly that list in that order, and nothing is missing |
| Plugins.AllExpandsInPlace | railties/test/initializer_test.rb:225-239 | `before + [:all] + after` loads the names before, then the unnamed discovered plugins in discovery order, then the names after |
| Plugins.AllWithMissingNames | railties/test/initializer_test.rb:225-274 | With `:all` and names that may be missing, the loaded plugins are the found names before, the unnamed discovered plugins, then the found names after, each once at its first place |
| Plugins.AllFailsIffNameMissing | railties/test/initializer_test.rb:249-274 | A list with `:all` fails to load exactly when some name on either side of it is not discovered |
| Plugins.NamedAroundAll | railties/test/initializer_test.rb:233-239 | The names on both sides of `:all` count as named, so `:all` excludes them |
| Plugins.AroundAllDiscovered | railties/test/initializer_test.rb:225-239 | If the entries on each side of `:all` are discovered, every named entry of the whole list is |
| Plugins.ExpandAround | railties/test/initializer_test.rb:225-239 | `:all` between two wildcard-free lists expands to the unnamed plugins, and the lists keep their names and positions |
| Plugins.ValidNamesStayLoaded | railties/test/initializer_test.rb:256-274 | Without `:all`, the discovered names stay loaded in listed order, and loading fails exactly when some listed name is undiscovered |
| Plugins.MissingNamesExactlyTheAbsent | railties/test/initializer_test.rb:256-274 | A plugin is reported missing if and only if it is selected and not discovered |
| Plugins.ExpandSameEntries | railties/test/initializer_test.rb:241-247 | Two lists that agree entry by entry up to string or symbol spelling expand identically |
| Plugins.StringsAndSymbolsMatchAlike | railties/test/initializer_test.rb:241-247 | Writing names as strings or as symbols changes neither the load order nor which names are missing |
| Frameworks.StripUnderscores | railties/test/initializer_test.rb:153 | Definition (`gsub(/_/, '')`); its meaning is stated by `Frameworks.StripUnderscoresAppend`, `Frameworks.StripUnderscoresKeeps` and `Frameworks.StripUnderscoresCons` |
| Frameworks.FrameworkDirs | railties/test/initializer_test.rb:137-155 | Definition of the framework directories relative to the root; its meaning is stated by `Frameworks.FrameworkPaths`, `Frameworks.ActionPackPathIffControllerOrView` and `Frameworks.LibraryDirOnPathIffActive` |
| Frameworks.StripUnderscoresAppend | railties/test/initializer_test.rb:153 | Removing underscores distributes over concatenation |
| Frameworks.StripUnderscoresKeeps | railties/test/initializer_test.rb:153 | A name without underscores is unchanged |
| Frameworks.StripUnderscoresCons | railties/test/initializer_test.rb:153 | Removing underscores drops a leading underscore and keeps any other leading character |
| Frameworks.StripUnderscoresAtJoin | railties/test/initializer_test.rb:153 | The underscore between two words disappears |
| Frameworks.StripUnderscoresJoins | railties/test/initializer_test.rb:153 | `a_b`, with no other underscore, becomes `ab` |
| Frameworks.TwoWordDir | railties/test/initializer_test.rb:150-155 | A two-word framework name loses its underscore |
| Frameworks.ThreeWordDir | railties/test/initializer_test.rb:150-155 | A three-word framework name loses both underscores |
| Frameworks.NamedLibraryDirsDropUnderscores | railties/test/initializer_test.rb:150-155 | Each library directory of the record, mailer, resource and web-service frameworks is the framework name without underscores, then `/lib` |
| Frameworks.LibDirs | railties/test/initializer_test.rb:150-155 | A library directory is listed exactly when its framework is active |
| Frameworks.LibDirsNoneActive | railties/test/initializer_test.rb:137-140 | With none of the library frameworks active, no library directory is listed |
| Frameworks.JoinAll | railties/test/initializer_test.rb:139 | Definition (each directory joined to the root, in order); its meaning is stated by `Frameworks.JoinAllMembers` |
| Frameworks.JoinAllMembers | railties/test/initializer_test.rb:187-190 | A joined path comes from some directory, and every directory gives one |
| Frameworks.FrameworkPaths | railties/test/initializer_test.rb:137-155 | The three base paths come first; with no frameworks they are all; a path is present exactly when some framework directory joined to the root gives it |
| Frameworks.UnderInjective | railties/test/initializer_test.rb:187-190 | Joining two different directories to the same root never gives the same path |
| Frameworks.MinimalFrameworkPaths | railties/test/initializer_test.rb:137-140 | With no frameworks the paths are exactly `root/railties`, `root/railties/lib`, `root/activesupport/lib` |
| Frameworks.ActionPackPathIffControllerOrView | railties/test/initializer_test.rb:142-148 | `root/actionpack/lib` is present if and only if the controller or the view framework is active |
| Frameworks.LibraryDirOnPathIffActive | railties/test/initializer_test.rb:150-155 | A library framework's directory is on the path if and only if that framework is active |
| Frameworks.LibraryPathIffActive | railties/test/initializer_test.rb:150-155 | The same directory is the framework name without underscores plus `/lib`, and it is on the path exactly when the framework is active |
| Frameworks.RequireFrameworks | railties/test/initializer_test.rb:157-184 | Requiring succeeds if and only if every listed framework is known; otherwise the RuntimeError names the first unknown one, all earlier ones being known |
| Frameworks.LoadViewPaths | railties/test/initializer_test.rb:476-490 | Without the view framework nothing is reloaded; the controller or mailer view paths are reloaded exactly when the view framework and that framework are active |
| DatabaseMiddleware.Calls | railties/test/initializer_test.rb:428-473 | Definition of the calls `initialize_database_middleware` makes; its meaning is stated by `DatabaseMiddleware.NoRecordLayerNoCalls` and `DatabaseMiddleware.InsertsIffRecordSessionStore` |
| DatabaseMiddleware.Apply | railties/test/initializer_test.rb:434-473 | Definition of one call's effect on the stack; its meaning is stated by `DatabaseMiddleware.InsertBeforeFirst` |
| DatabaseMiddleware.ApplyAll | railties/test/initializer_test.rb:434-473 | Definition of the calls applied in order; its meaning is stated by `DatabaseMiddleware.ApplyTwo`, `DatabaseMiddleware.InsertedJustBeforeSessionStore` and `DatabaseMiddleware.AppendedOtherwise` |
| DatabaseMiddleware.IndexOf | railties/test/initializer_test.rb:434-444 | The first position of a middleware in the stack |
| DatabaseMiddleware.NoRecordLayerNoCalls | railties/test/initializer_test.rb:428-432 | Without the record framework the step makes no call, and the stack is untouched |
| DatabaseMiddleware.ApplyTwo | railties/test/initializer_test.rb:434-473 | Two calls act on the stack one after the other |
| DatabaseMiddleware.InsertsIffRecordSessionStore | railties/test/initializer_test.rb:434-473 | With the record framework there are two calls. Both insert before the session store if and only if the controller framework is active and the store is the record one; otherwise both append |
| DatabaseMiddleware.InsertBeforeFirst | railties/test/initializer_test.rb:434-444 | Inserting before a middleware puts the component at its first position, and that middleware moves down one place |
| DatabaseMiddleware.SplitAfterInserted | railties/test/initializer_test.rb:434-444 | Splitting just after an inserted component splits the original stack at the insertion point |
| DatabaseMiddleware.InsertTwoBefore | railties/test/initializer_test.rb:434-444 | Two insertions before the same middleware land just before it, next to each other, in call order |
| DatabaseMiddleware.InsertedJustBeforeSessionStore | railties/test/initializer_test.rb:434-444 | With the record session store, the connection manager and then the query cache sit immediately before the session store, and the rest of the stack keeps its order |
| DatabaseMiddleware.AppendedOtherwise | railties/test/initializer_test.rb:446-473 | In every other case with the record framework, both components go to the end of the stack, connection manager first |
| GeneratorsConfiguration.At | railties/test/initializer_test.rb:307-312 | Definition (a namespace not yet configured reads as an empty hash); its meaning is stated by `GeneratorsConfiguration.MergeInto` |
| GeneratorsConfiguration.MergeInto | railties/test/initializer_test.rb:337-352 | Merging settings into a namespace adds their keys and values, keeps its other keys, and leaves the other namespaces alone |
| GeneratorsConfiguration.SettingName | railties/test/initializer_test.rb:307-312 | A setter name ending in `=` stands for the setting without the `=` |
| GeneratorsConfiguration.Arg | railties/test/initializer_test.rb:320-323 | Definition (an argument that was not passed reads as `nil`); its meaning is stated by `GeneratorsConfiguration.BareSettingGoesUnderRails` and `GeneratorsConfiguration.MethodMissingRaisesIff` |
| GeneratorsConfiguration.Truthy | railties/test/initializer_test.rb:293-372 | Ruby truthiness (only `nil` and `false` are falsy); its effect is stated by `GeneratorsConfiguration.FalsyConfigurationRecordsNothing` and `GeneratorsConfiguration.ConfigureRaisesIff` |
| GeneratorsConfiguration.FalsyConfigurationRecordsNothing | railties/test/initializer_test.rb:337-352 | A `nil` or `false` configuration leaves both tables unchanged and raises nothing |
| GeneratorsConfiguration.IsAccessor | railties/test/initializer_test.rb:293-320 | The names the builder answers itself (`aliases`, `options`, `colorize_logging` and their setters); `GeneratorsConfiguration.Generators.Send` routes only other names, and the accessors are `GeneratorsConfiguration.Generators.SetAliases`, `SetOptions` and `SetColorizeLogging` |
| GeneratorsConfiguration.Configure | railties/test/initializer_test.rb:337-352 | Definition of how a hash configures a namespace; its meaning is stated by `GeneratorsConfiguration.ConfigureRaisesIff`, `GeneratorsConfiguration.ConfigureExtends` and `GeneratorsConfiguration.AliasesKeyGoesToAliases` |
| GeneratorsConfiguration.MethodMissing | railties/test/initializer_test.rb:307-352 | Definition of `method_missing`'s routing; its meaning is stated by `GeneratorsConfiguration.MethodMissingRaisesIff`, `GeneratorsConfiguration.SettingsAccumulate`, `GeneratorsConfiguration.BareSettingGoesUnderRails`, `GeneratorsConfiguration.HashSettingGoesUnderValueNamespace` and `GeneratorsConfiguration.RepeatedNamespaceMerges` |
| GeneratorsConfiguration.Generators.constructor | railties/test/initializer_test.rb:301-305 | A new builder colourises logging and has empty options and aliases |
| GeneratorsConfiguration.Generators.SetAliases | railties/test/initializer_test.rb:314-318 | `aliases = {...}` replaces the aliases table and changes nothing else |
| GeneratorsConfiguration.Generators.SetOptions | railties/test/initializer_test.rb:301-305 | `options = {...}` replaces the options table and changes nothing else |
| GeneratorsConfiguration.Generators.SetColorizeLogging | railties/test/initializer_test.rb:331-335 | `colorize_logging = b` sets the flag and changes nothing else |
| GeneratorsConfiguration.Generators.Send | railties/test/initializer_test.rb:307-352 | A setting call leaves both tables as the `method_missing` routing gives them, and raises exactly when that routing does |
| GeneratorsConfiguration.ConfigureRaisesIff | railties/test/initializer_test.rb:337-352 | Configuring a namespace raises if and only if the configuration is a truthy non-hash, or a hash whose `:aliases` entry is a truthy non-hash |
| GeneratorsConfiguration.MethodMissingRaisesIff | railties/test/initializer_test.rb:320-352 | A setting call raises exactly when the configuration it routes raises |
| GeneratorsConfiguration.ExtendsTransitive | railties/test/initializer_test.rb:337-352 | One table keeping every setting of another is a transitive relation |
| GeneratorsConfiguration.SettingsAccumulate | railties/test/initializer_test.rb:307-352 | No setting call, raising or not, drops a namespace or a setting name from either table |
| GeneratorsConfiguration.ConfigureExtends | railties/test/initializer_test.rb:337-352 | Configuring a namespace drops nothing from either table |
| GeneratorsConfiguration.BareSettingGoesUnderRails | railties/test/initializer_test.rb:307-312 | `name value` or `name = value` records the value as the `:rails` setting `name`, does not raise, and leaves the aliases alone |
| GeneratorsConfiguration.HashSettingGoesUnderValueNamespace | railties/test/initializer_test.rb:337-350 | `name value, {hash}` records the value under `:rails` and merges the hash into the value's namespace; nothing else changes |
| GeneratorsConfiguration.AliasesKeyGoesToAliases | railties/test/initializer_test.rb:337-352 | The `:aliases` entry of a hash goes to the aliases table under the namespace; only the other settings go to the options |
| GeneratorsConfiguration.RepeatedNamespaceMerges | railties/test/initializer_test.rb:307-312 | Configuring the same namespace twice, `:rails` included, merges the two hashes key by key, the later one winning |
| GeneratorsConfiguration.DeepMerge | railties/test/initializer_test.rb:354-364 | A deep merge holds the keys of both hashes; what it keeps at every depth is stated by `GeneratorsConfiguration.DeepMergeCoversSecond` and `GeneratorsConfiguration.DeepMergeRetainsFirst` |
| GeneratorsConfiguration.CoversItself | railties/test/initializer_test.rb:354-364 | Every hash holds everything it holds, at every level |
| GeneratorsConfiguration.DeepMergeCoversSecond | railties/test/initializer_test.rb:320-329 | Nothing the second hash says, at any level, is lost by deep-merging it in |
| GeneratorsConfiguration.DeepMergeKeepsFirst | railties/test/initializer_test.rb:354-364 | Keys only the first hash holds keep their values |
| GeneratorsConfiguration.DeepMergeRetainsFirst | railties/test/initializer_test.rb:354-364 | At every depth, every setting of the first hash that the second does not replace survives the merge, and nested hashes both sides hold are merged again rather than replaced |
| GeneratorsConfiguration.DeepMergeKeepsNested | railties/test/initializer_test.rb:354-364 | One level down, a nested setting the second hash does not name keeps the first hash's value |
| GeneratorsConfiguration.DeepMergeIdempotent | railties/test/initializer_test.rb:354-364 | Deep-merging a hash into itself changes nothing |
| GeneratorsConfiguration.MergeTables | railties/test/initializer_test.rb:354-364 | Merging two tables keeps the namespaces of both |
| GeneratorsConfiguration.MergeTablesSpec | railties/test/initializer_test.rb:354-364 | A namespace only the first table holds is kept; the second table's settings all survive; where both hold a namespace, the first table's settings survive wherever the second does not replace them, at every depth |
| GeneratorsConfiguration.InitializeGenerators | railties/test/initializer_test.rb:320-335 | With colourised logging off the shell becomes the basic one, otherwise it is unchanged; the registry keeps its namespaces and gains the configured ones |
| GeneratorsConfiguration.InitializeGeneratorsPublishes | railties/test/initializer_test.rb:320-364 | After initialization the registry holds every configured option and alias. It keeps its own settings for unconfigured namespaces, and inside a configured namespace every one of its own settings the configuration does not replace, at every depth |
| GeneratorsConfiguration.RegistrySettingSurvives | railties/test/initializer_test.rb:354-364 | A registry option inside a configured namespace that the configuration does not name keeps its value |
| Initializer.Execute | railties/test/initializer_test.rb:66-94 | Definition of one block run; its meaning is stated by `Initializer.RunBlocksLastAssignmentWins` |
| Initializer.RunBlocks | railties/test/initializer_test.rb:66-94 | Definition of the blocks run in order; its meaning is stated by `Initializer.RunBlocksLastAssignmentWins` and `Initializer.DistinctBlocksBothTakeEffect` |
| Initializer.LastAssigned | railties/test/initializer_test.rb:66-124 | No value if and only if no block assigns the global |
| Initializer.LastAssignedIsLast | railties/test/initializer_test.rb:66-124 | A value found comes from a block assigning the global, and no later block assigns it |
| Initializer.RunBlocksLastAssignmentWins | railties/test/initializer_test.rb:66-124 | Running the blocks in order gives each global the value of the last block assigning it, and leaves the other globals as they were |
| Initializer.DistinctBlocksBothTakeEffect | railties/test/initializer_test.rb:87-93 | Two blocks assigning different globals both take effect |
| Initializer.Without | railties/test/initializer_test.rb:461-462 | Ruby's `array - other`: exactly the elements not removed remain, and the list never grows |
| Initializer.WithoutAppend | railties/test/initializer_test.rb:461-462 | Removal keeps the order of what remains: removing from two joined lists is removing from each and joining |
| Initializer.WithoutAbsentKeeps | railties/test/initializer_test.rb:461-462 | Removing frameworks a list does not hold leaves the list as it is |
| Initializer.Configuration.FrameworkPaths | railties/test/initializer_test.rb:137-155 | `framework_paths` of the configuration's frameworks and root, with at least the three base paths; its meaning is stated by `Frameworks.FrameworkPaths` |
| Initializer.Configuration.constructor | railties/test/initializer_test.rb:375-384 | The default frameworks, no selection list, no blocks and no loaded plugins. The I18n load path is the `config/locales` listing, or empty without that directory. The generators are default |
| Initializer.Configuration.SetFrameworks | railties/test/initializer_test.rb:146 | `frameworks = [...]` replaces the list; every other field stays as it was |
| Initializer.Configuration.AppendFramework | railties/test/initializer_test.rb:143 | `frameworks << f` appends `f`; every other field stays as it was |
| Initializer.Configuration.ClearFrameworks | railties/test/initializer_test.rb:129 | `frameworks.clear` empties the list; every other field stays as it was |
| Initializer.Configuration.RemoveFrameworks | railties/test/initializer_test.rb:462 | `frameworks -= [...]` removes every listed framework; every other field stays as it was |
| Initializer.Configuration.AddPluginPath | railties/test/initializer_test.rb:199 | `plugin_paths << path` appends a search path; every other field stays as it was |
| Initializer.Configuration.SetPlugins | railties/test/initializer_test.rb:207 | Setting the selection list replaces it; every other field stays as it was |
| Initializer.Configuration.AfterInitialize | railties/test/initializer_test.rb:96-105 | A block is kept at the end of the list, and a call without a block keeps nothing; every other field stays as it was |
| Initializer.Configuration.AppendI18nLoadPath | railties/test/initializer_test.rb:386-394 | `i18n.load_path << path` appends after the discovered files; every other field stays as it was |
| Initializer.Configuration.SetDefaultLocale | railties/test/initializer_test.rb:414-416 | `i18n.default_locale = l` sets the locale; every other field stays as it was |
| Initializer.RunAfterInitialize | railties/test/initializer_test.rb:66-80 | With the gem dependencies loaded, every kept block runs, in registration order; otherwise none runs |
| Initializer.RecordLoaded | railties/test/initializer_test.rb:212-217 | The plugins are appended to `loaded_plugins` in order; every other field of the configuration stays as it was |
| Initializer.LoadPlugins | railties/test/initializer_test.rb:206-274 | The located plugins are recorded in order, and no other field of the configuration changes. The step succeeds if and only if no selected plugin is missing; otherwise the error names the missing plugins |
| Initializer.NamesOf | railties/test/initializer_test.rb:266-271 | Definition (the plugins' names, in order); its meaning is stated by `Initializer.LoadErrorNamesOnlyMissing` |
| Initializer.LoadErrorNamesOnlyMissing | railties/test/initializer_test.rb:256-274 | The error names a plugin if and only if it was selected, as string or symbol, and not discovered; it never names a loaded plugin |
| Initializer.InitializeI18n | railties/test/initializer_test.rb:396-419 | The process-wide load path keeps its files first and gains the configured ones after them; a configured default locale replaces the current one |
| Scenarios.FixtureNamesDistinct | railties/test/initializer_test.rb:222 | The six fixture names are pairwise different |
| Scenarios.Distinct6NoDuplicates | railties/test/initializer_test.rb:222 | Six pairwise different names form a repeat-free list |
| Scenarios.SixUnlisted | railties/test/initializer_test.rb:225-239 | `:all` over six plugins, with the second and the last named, stands for the other four in order |
| Scenarios.NamedSecondAndLast | railties/test/initializer_test.rb:225-239 | A list naming only `stubby` and `acts_as_chunky_bacon` names exactly those two of the six |
| Scenarios.EmptyListLoadsNothing | railties/test/initializer_test.rb:206-210 | An empty selection list loads no plugin and misses none |
| Scenarios.TwoListedInOrder | railties/test/initializer_test.rb:212-217 | Two distinct discovered names load in listed order |
| Scenarios.OnlyTheListedPluginsInListedOrder | railties/test/initializer_test.rb:212-217 | `[:plugin_with_no_lib_dir, :acts_as_chunky_bacon]` loads exactly those two, in that order |
| Scenarios.FixturesInNameOrder | railties/test/initializer_test.rb:219-223 | The fixture names `a, acts_as_chunky_bacon, engine, gemlike, plugin_with_no_lib_dir, stubby` are in name order |
| Scenarios.FixtureListingDiscoversFixtures | railties/test/initializer_test.rb:196-204 | One search path holding the fixture directories, listed in any order, discovers the fixtures in name order |
| Scenarios.FixtureLayoutDiscoveredInNameOrder | railties/test/initializer_test.rb:199-202 | The fixture tree, listed `stubby, acts_as_chunky_bacon, engine, ...`, is discovered in name order |
| Scenarios.NameOrderNotListingOrder | railties/test/initializer_test.rb:219-223 | `z` on the first path and `a` on the second are discovered as `a`, `z` |
| Scenarios.UntouchedListLoadsAllInNameOrder | railties/test/initializer_test.rb:219-223 | With no list the fixtures, listed in any order, load in the order `a, acts_as_chunky_bacon, engine, gemlike, plugin_with_no_lib_dir, stubby` |
| Scenarios.UnlistedAfterTwo | railties/test/initializer_test.rb:225-231 | `:all` after the names of the last and the second fixture stands for the other four |
| Scenarios.TwoBeforeAll | railties/test/initializer_test.rb:225-231 | `[x, y, :all]` loads `x`, `y`, then the unnamed discovered plugins |
| Scenarios.AllAfterTwo | railties/test/initializer_test.rb:225-231 | Over six distinct plugins, `[f, b, :all]` loads `f, b, a, c, d, e` |
| Scenarios.AllAfterNamedPlugins | railties/test/initializer_test.rb:225-231 | `[:stubby, :acts_as_chunky_bacon, :all]` loads `stubby, acts_as_chunky_bacon, a, engine, gemlike, plugin_with_no_lib_dir` |
| Scenarios.UnlistedBetweenTwo | railties/test/initializer_test.rb:233-239 | `:all` between the last fixture's name and the second's stands for the other four |
| Scenarios.AllBetween | railties/test/initializer_test.rb:233-239 | `[x, :all, y]` loads `x`, the unnamed plugins, then `y` |
| Scenarios.AllBetweenTwo | railties/test/initializer_test.rb:233-239 | Over six distinct plugins, `[f, :all, b]` loads `f, a, c, d, e, b` |
| Scenarios.AllBetweenNamedPlugins | railties/test/initializer_test.rb:233-239 | `[:stubby, :all, :acts_as_chunky_bacon]` loads `stubby, a, engine, gemlike, plugin_with_no_lib_dir, acts_as_chunky_bacon` |
| Scenarios.FourListedInOrder | railties/test/initializer_test.rb:241-247 | Four distinct discovered names, two as strings and two as symbols, load in listed order |
| Scenarios.StringAndSymbolNamesLoadInListedOrder | railties/test/initializer_test.rb:241-247 | `['stubby', 'acts_as_chunky_bacon', :a, :plugin_with_no_lib_dir]` loads those four in that order |
| Scenarios.UnknownNamesNotFixtures | railties/test/initializer_test.rb:249-258 | The unknown plugin names are not fixtures, and the two in the error test differ |
| Scenarios.SecondMissingFails | railties/test/initializer_test.rb:249-254 | Selecting an undiscovered plugin makes loading fail |
| Scenarios.UnknownPluginFailsToLoad | railties/test/initializer_test.rb:249-254 | `[:stubby, :acts_as_a_non_existant_plugin]` fails to load |
| Scenarios.TwoFoundTwoMissing | railties/test/initializer_test.rb:256-274 | Two discovered and two undiscovered names load the first two, in order, and report the other two as missing, in order |
| Scenarios.FoundTwoOfFour | railties/test/initializer_test.rb:256-264 | Of two discovered and two undiscovered names, the found ones are the first two, in order |
| Scenarios.MissingTwoOfFour | railties/test/initializer_test.rb:256-271 | Of two discovered and two undiscovered names, the missing ones are the last two, in order |
| Scenarios.DedupPair | railties/test/initializer_test.rb:256-264 | Two distinct names stay as they are after deduplication |
| Scenarios.LoadErrorNamesTheMissingPluginsOnly | railties/test/initializer_test.rb:256-274 | With the two unknown plugins selected, loading fails, `stubby` and `acts_as_chunky_bacon` stay loaded, and exactly the two unknown ones are missing |
| ConfigurationScenarios.MinimalFrameworkPaths | railties/test/initializer_test.rb:137-140 | After `frameworks.clear`, `framework_paths` is exactly the three base paths |
| ConfigurationScenarios.ControllerOrViewAddsActionPack | railties/test/initializer_test.rb:142-148 | Both `frameworks << :action_controller` and `frameworks = [:action_view]` put `root/actionpack/lib` on the path |
| ConfigurationScenarios.PathsForLibraryFrameworks | railties/test/initializer_test.rb:150-155 | Each of the four library frameworks puts `root/<name without underscores>/lib` on the path |
| ConfigurationScenarios.UnknownFrameworkRaises | railties/test/initializer_test.rb:157-165 | `frameworks << :action_foo` makes `require_frameworks` raise a RuntimeError naming `action_foo` |
| ConfigurationScenarios.ViewPathsWithoutMailerOrController | railties/test/initializer_test.rb:167-184 | With only the controller framework, or none, `load_view_paths` reloads nothing |
| ConfigurationScenarios.ControllerAloneIsRequired | railties/test/initializer_test.rb:167-184 | Requiring only the controller framework, or none, succeeds |
| ConfigurationScenarios.ViewPathsNeedTheViewFramework | railties/test/initializer_test.rb:476-490 | Removing the view framework from view, controller and mailer leaves no view paths to reload |
| ConfigurationScenarios.EmptyPluginListLoadsNothing | railties/test/initializer_test.rb:196-210 | After the plugin tests' setup, `load_plugins` with an empty list succeeds and records no plugin, and the setup's frameworks (without the mailer) and search path are still in place |
| ConfigurationScenarios.LoadErrorKeepsValidPluginsLoaded | railties/test/initializer_test.rb:256-274 | `load_plugins` records `stubby` and `acts_as_chunky_bacon` and raises an error naming exactly the two unknown plugins |
| ConfigurationScenarios.GeneratorsDefaults | railties/test/initializer_test.rb:301-305 | A new configuration's generators colourise logging and have empty aliases and options |
| ConfigurationScenarios.SetRailsOptions | railties/test/initializer_test.rb:307-312 | `orm = :datamapper` and `test_framework = :rspec` give options `{rails: {orm: datamapper, test_framework: rspec}}` |
| ConfigurationScenarios.SetRailsAliases | railties/test/initializer_test.rb:314-318 | `aliases = {rails: {test_framework: "-w"}}` is kept as given |
| ConfigurationScenarios.AliasesAndOptionsOnInitialization | railties/test/initializer_test.rb:320-329 | After the three settings and `initialize_generators`, the registry's `:rails` option for the test framework is `:rspec` and its alias is `"-w"`, whatever the registry held before |
| ConfigurationScenarios.NoColorOnInitialization | railties/test/initializer_test.rb:331-335 | `colorize_logging = false` selects the basic shell |
| ConfigurationScenarios.OrmWithMigrationOff | railties/test/initializer_test.rb:339 | `orm :datamapper, :migration => false` on an empty builder records `orm` under `:rails` and `migration: false` under `:datamapper` |
| ConfigurationScenarios.PluginWithAliases | railties/test/initializer_test.rb:340-341 | Then `plugin :aliases => {generator: "-g"}, :generator => true` adds `generator: true` to the options and `generator: "-g"` to the aliases, both under `:plugin` |
| ConfigurationScenarios.HashesForOptionsAndAliases | railties/test/initializer_test.rb:337-352 | The two calls give exactly the expected three-namespace options table and one-namespace aliases table |
| ConfigurationScenarios.HashesAreDeepMerged | railties/test/initializer_test.rb:354-364 | After `initialize_generators` the registry has at least one namespace of aliases and one of options |
| ConfigurationScenarios.AfterInitializeWithBlocks | railties/test/initializer_test.rb:66-94 | The two blocks set `$test_after_initialize_block1` to "success" and `$test_after_initialize_block2` to "congratulations" |
| ConfigurationScenarios.AfterInitializeWithNoBlock | railties/test/initializer_test.rb:96-124 | A call without a block between them is not kept, and both blocks still take effect |
| ConfigurationScenarios.NoLocalesDirectoryEmptyLoadPath | railties/test/initializer_test.rb:375-378 | Without `config/locales` the load path is empty |
| ConfigurationScenarios.LocalesDirectoryAddedToLoadPath | railties/test/initializer_test.rb:380-384 | With it, its file is the load path |
| ConfigurationScenarios.AppendedPathsComeAfterDiscovered | railties/test/initializer_test.rb:386-394 | An appended file comes after the discovered one |
| ConfigurationScenarios.I18nLoadPathAfterInitialization | railties/test/initializer_test.rb:396-412 | After `initialize_i18n` the frameworks' and plugins' locale files come first, then the configured two |
| ConfigurationScenarios.SettingAnotherDefaultLocale | railties/test/initializer_test.rb:414-419 | `default_locale = :de` makes the process-wide default locale `de` |
| ConfigurationScenarios.NoRecordLayerTouchesNothing | railties/test/initializer_test.rb:428-432 | After `frameworks.clear` the step makes no middleware call |
| ConfigurationScenarios.RecordSessionStoreInsertsBeforeIt | railties/test/initializer_test.rb:434-444 | With the record session store, the connection manager and the query cache are inserted before it, in that order |
| ConfigurationScenarios.OtherSessionStoreAppends | railties/test/initializer_test.rb:446-459 | With the cookie store both are appended |
| ConfigurationScenarios.WithoutControllerAppends | railties/test/initializer_test.rb:461-473 | Without the controller framework both are appended, even with the record session store |

## Left out

- The production `rails/initializer` and `rails/generators` code is not part of this model. The rules are rebuilt from the test assertions.
- Plugin discovery sorts the found names by name, which is the order the test at line 222 expects of fixtures laid out in other directories. The order in which the locator walks the directories is an input, on which the result does not depend. Names are compared character by character; a locale-aware collation is not modelled.
- A plugin name found on several search paths is discovered once; which path's copy is loaded is not modelled.
- Filesystem probes (`File.directory?`, `File.exist?`, `Dir[]`, `File.expand_path`) are not modelled. The discovered plugin directories and globbed locale files are inputs. Every framework directory counts as present, as the stub at line 133 makes it.
- `require` is not modelled, nor the translation of the raw LoadError into a RuntimeError. `Frameworks.RequireFrameworks` treats an identifier outside the known framework set as unloadable and names it in the error.
- Frameworks.RequireFrameworks: the RuntimeError carries the unknown framework's name, not the LoadError's message text.
- The LoadError message of `load_plugins` is not modelled as text. The error carries the list of missing names; the test at lines 266-271 matches that text against plugin names.
- `load_environment` (lines 37-44), which evaluates a Ruby file, is left out.
- Eager loading of application classes (lines 59-63) is left out.
- `add_plugin_load_paths` and `$LOAD_PATH` (lines 276-283) are left out.
- `Rails.root` (lines 493-500) is left out.
- The initializer's dispatch of steps by name is left out; each step is its own function or method.
- The mocha expectations on the middleware stack and on `view_paths.load!` are left out. The model states which calls the step makes and what they do to a stack.
- A selection list with more than one `:all` is not reported as a configuration error; it loads as described above.
- The `:all` wildcard is only the `Plugins.All` entry. An entry `Named(Symbol("all"))` is treated as a plugin called `all`, although in Ruby it is the same value as `:all`; `Named(Text("all"))`, the string `'all'`, is likewise treated as a plugin called `all`; this is the model's choice, as no test lists the string.
- Process-wide state (the I18n module, the generators registry, the Thor shell) is a value passed in and returned.
- Initializer.RunAfterInitialize: the gem-dependencies check is a boolean parameter, and a block is modelled only as one assignment to a global variable.
- GeneratorsConfiguration.Generators.Send: hash keys are strings, so symbol and string keys in a hash are not told apart.
- GeneratorsConfiguration.Generators.Send: a call that raises happens after the namespace entry was created, and that entry is kept. Ruby's `delete` on the caller's argument hash is not modelled.
- GeneratorsConfiguration.Generators.SetAliases: the builder reads any absent namespace as an empty hash. A plain hash assigned through `aliases=`, which would lose that behaviour in Ruby, is not distinguished.
- GeneratorsConfiguration.Generators.Send: a setting call with no arguments is routed like any other scalar setting, with `nil` as its value. No getter form is modelled.
- Initializer.Configuration.constructor: the default locale is left unset (`None`), so `initialize_i18n` keeps the current process-wide default. Its fixed default value is not modelled.
