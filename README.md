# rambo-cli, modelled in Dafny

rambo-cli is a small command dispatcher for Python command-line applications.
An application declares its vocabulary in `rambo.yml` and writes one handler
class per command. The framework discovers the handler classes, keys each by a
snake-case form of its class name, parses the command line and runs the
matching handler. There are two generations of the engine, and both are
modelled here.

- **The verb/noun engine** (`EntryPoint`, `collect_entry_points`,
  `run_entry_point` in `rambo/__init__.py`). The engine is duplicated almost
  verbatim in `rambo/configs/rambo_config.py` and
  `rambo/entrypoint/entrypoint.py`.
  - It reads `<program> <verb> <noun> [flags]`, with verbs and nouns taken from
    the configuration.
  - It looks up the handler keyed `verb_noun` and maps the outcome to an exit
    status: 0 when `run()` completes; 1 when the key is missing or a
    `NotImplementedError` escapes; 2 for an argument error. Any other exception
    propagates.
- **The command/action engine** (`BaseEntryPoint`, `SingleActionEntryPoint`,
  `MultiActionEntryPoint` in `rambo/entrypoint/__init__.py`, with the runner
  in `rambo/discovery/__init__.py`).
  - It reads `<program> <command> [<action>] [args]`.
  - A single-action handler runs its `action()` method.
  - A multi-action handler routes the action token to its method
    `action_<token>`.
- **The configuration record** `RamboConfig`, with its optional sections and
  defaults, and the mutable `AppConfig` store.
- **The `NewProject` handler's project-name validator**, the scaffold paths it
  derives, and the decisions of its `run()`.

The duplicated classes are modelled once. The model of `name()` (module
`Naming`) serves `EntryPoint.name` in both files and `BaseEntryPoint.name`. The
`RamboConfig` datatype (module `Config`) serves both copies of the class. The
only difference is that the copy in `rambo/__init__.py` has no
`is_pip_package` accessor. The rows below cite whichever copy a member states
something about.

Dynamic parts of Python are explicit inputs:

- Module import and class introspection are a `Packages` record. It says
  which submodules a directory lists and which dotted module names import. An
  imported module is the sequence of members `inspect.getmembers` yields, and
  a class is a `ClassInfo` record holding:
  - its name;
  - its framework lineage;
  - whether it is one of the framework's own base classes;
  - its own and its inherited attribute names;
  - its description and help block.
- `sys.argv` is a `seq<string>` and `os.environ` is a `map<string, string>`.
- A `Host` record carries the working directory and file existence. It also
  says whether a handler's own argument schema accepts an argv window, and how
  user-written handler methods complete.
- A run ends in an `Outcome`: either `Exited(code, message)` or
  `Raised(failure)`.

Modules by file:

| file | module | models |
|---|---|---|
| `results.dfy` | `Results` | `Option`, `Result` |
| `outcomes.dfy` | `Outcomes` | exceptions, exit outcomes, the `Host` inputs |
| `text.dfy` | `Text` | ASCII case, counting, `str.replace`, `startswith`, `pathlib` joining |
| `naming.dfy` | `Naming` | `name()`, `_validate_class_name`, `is_entry_point` |
| `ordered_dict.dfy` | `OrderedDict` | insertion-ordered dicts and dict comprehensions |
| `introspection.dfy` | `Introspection` | import and class-filter loops, the handler registry |
| `args.dfy` | `Args` | argv slicing windows, argparse positionals with `choices` |
| `rambo_config.dfy` | `Config` | `RamboConfig` |
| `app_config.dfy` | `AppConfigs` | `AppConfig` |
| `verb_noun.dfy` | `VerbNoun` | `collect_entry_points`, `EntryPoint.new`/`__init__`, `run_entry_point` |
| `actions.dfy` | `Actions` | `get_actions`, `help`, `execute`, `action`, handler construction |
| `discovery.dfy` | `Discovery` | `collect_entry_points` and `run_entrypoint` of the second engine |
| `project_actions.dfy` | `ProjectActions` | `NewProject` |

Behaviours that are modelled as the code has them:

- **Single-word class names pass validation.** `_validate_class_name` refuses
  only keys with two or more `_`. So `Project` (key `project`) is accepted just
  like `NewProject` (key `new_project`).
- **Duplicate keys are resolved silently.** Both registries are dict
  comprehensions, so the class collected last under a key wins and no error is
  raised. The key keeps the position of its first occurrence.
- **Two connection failures look the same.** An unknown database connection
  and a configured connection whose environment variable is unset raise the
  same `KeyError`. A connection configured with a boolean variable name raises
  `TypeError` instead, because `os.environ` refuses non-string keys.
- **`NotImplementedError` from a handler exits 1.** In the verb/noun engine a
  `NotImplementedError` raised by `new()` or by `run()` is reported exactly as a
  missing handler is: exit status 1 with the "not yet implemented" message.
- **An invalid multi-action token exits 0.** `execute` prints the token, the
  command's name and its actions, then calls a bare `exit()`, so the status is
  0.
- **`BaseEntryPoint` itself is discovered.** A handler module that imports it
  gets it registered (under `base_entry_point`). Running that command raises
  `NotImplementedError`.
- **An unknown command gets no friendly message.** The lookup of an unknown
  command fails with a bare `KeyError`.
- **Some listed actions cannot be called.** `get_actions` removes every `_`
  from an attribute name, so `action_build_all` is listed as `buildall`. But
  `execute("buildall")` looks up `action_buildall`, which does not exist, so it
  reports the token as invalid (`Actions.ListedTokenMayNotRoute`, for any `action_<a>_<b>`). A token
  without `_` and without `action` in it round-trips
  (`Actions.ListedActionRoutes`).
- **Empty names are accepted.** The project-name validator accepts the empty
  name. The project directory is then the working directory itself, and the
  configuration file is `.yml` inside it.

## Model

| member | source | states |
|---|---|---|
| `Outcomes.Terminate` | rambo/entrypoint/__init__.py:22-25 | an argparse rejection ends the process with status 2 and the usage text; every other failure propagates unchanged |
| `Text.RemoveAll` | rambo/entrypoint/__init__.py:83 | `replace('action', '')` never lengthens the name |
| `Text.RemoveAllAbsent` | rambo/entrypoint/__init__.py:83 | a name with no occurrence of `action` is left unchanged by `replace('action', '')` |
| `Text.WithoutRemoves` | rambo/entrypoint/__init__.py:83 | `replace('_', '')` leaves no `_`, and removes exactly as many characters as there were `_` |
| `Text.WithoutAbsent` | rambo/entrypoint/__init__.py:83 | `replace('_', '')` changes nothing in a string without `_` |
| `Text.WithoutAppend` | rambo/entrypoint/__init__.py:83 | removing `_` works piecewise: on a concatenation it is the concatenation of the two removals |
| `Text.ReplaceChar` | rambo/__init__.py:223 | `replace('/', '.')` keeps the length, and each character is `.` where the input had `/` and unchanged elsewhere |
| `Naming.Snake` | rambo/__init__.py:175 | the snake form is longer than the class name by exactly its number of upper-case letters |
| `Naming.SnakeNoUpper` | rambo/__init__.py:175 | no upper-case letter is left in the snake form |
| `Naming.SnakeAppend` | rambo/entrypoint/entrypoint.py:49 | the snake transform works character by character: the snake form of a concatenation is the concatenation of the snake forms |
| `Naming.SnakeOfLower` | rambo/entrypoint/entrypoint.py:49 | a name without upper-case letters is its own snake form |
| `Naming.SnakeRoundTrip` | rambo/entrypoint/entrypoint.py:48-49 | no information is lost: for a class name without `_`, reading `_x` back as `X` recovers the class name from its snake form |
| `Naming.SnakeUnderscores` | rambo/entrypoint/entrypoint.py:49 | for a class name without `_`, the snake form has one `_` per upper-case letter |
| `Naming.LStrip` | rambo/__init__.py:176 | `lstrip('_')` never lengthens the string, and its result does not start with `_` |
| `Naming.LStripDrops` | rambo/entrypoint/__init__.py:79 | `lstrip` keeps a suffix of its input, and everything it removes is the stripped character |
| `Naming.NameShape` | rambo/entrypoint/__init__.py:77-79 | a key never starts with `_` and contains no upper-case letter |
| `Naming.Name` | rambo/__init__.py:173-176 | `name()`: the snake form of the class name with its leading underscores stripped (its shape is stated by `Naming.NameShape`) |
| `Naming.NameUnderscores` | rambo/__init__.py:173-176 | for a class name without `_`, the key has one `_` per upper-case letter after the first character |
| `Naming.NameOfTwoWords` | rambo/__init__.py:173-176 | a class named `VerbNoun` (two capitalised lower-case words) gets the key `verb_noun` |
| `Naming.NewProjectKey` | rambo/terminal/project_actions.py:6 | the class `NewProject` gets the key `new_project` |
| `Naming.ValidateClassName` | rambo/__init__.py:178-186 | the underscore-counting loop accepts a class exactly when its key has at most one `_` |
| `Naming.TwoWordRule` | rambo/entrypoint/entrypoint.py:52-60 | for class names without `_`, validation passes exactly when at most one upper-case letter follows the first character, so single-word names pass |
| `Naming.IsEntryPoint` | rambo/__init__.py:189-190 | `is_entry_point()`: false only for the class named `EntryPoint` |
| `OrderedDict.Get` | rambo/discovery/__init__.py:41 | a lookup finds a value exactly when the key is present |
| `OrderedDict.Put` | rambo/__init__.py:249 | assigning a key stores its value and leaves every other key's value alone; a new key goes last, an existing one keeps its place, and keys stay distinct |
| `OrderedDict.FromPairs` | rambo/__init__.py:249 | a dict comprehension has distinct keys, and its keys are exactly the keys produced |
| `OrderedDict.FromPairsLastWins` | rambo/discovery/__init__.py:24 | when several entries share a key, the value of the last one is kept |
| `OrderedDict.FromPairsKeyOrder` | rambo/__init__.py:249 | keys appear once each, in the order of their first occurrence |
| `Introspection.ImportAllResult` | rambo/__init__.py:221-230 | importing a list of modules succeeds exactly when every name imports, and then yields the modules in order; otherwise the error names the first name that does not import |
| `Introspection.ImportAll` | rambo/__init__.py:221-230 | the imports of `collect_entry_points`, in order, stopping at the first that fails (stated by `Introspection.ImportAllResult`) |
| `Introspection.ImportErrPersists` | rambo/__init__.py:226-229 | once an import fails, nothing after it is imported, and that failure is the result |
| `Introspection.MemberCandidates` | rambo/discovery/__init__.py:19-23 | the classes kept from a module are exactly its classes that pass the filter |
| `Introspection.SelectClasses` | rambo/discovery/__init__.py:19-23 | the loop over `inspect.getmembers` appends exactly the passing classes, in member order |
| `Introspection.Candidates` | rambo/__init__.py:237-247 | a class is collected exactly when it passes the filter and is a member of one of the imported modules |
| `Introspection.RegistryKeys` | rambo/__init__.py:249 | the registry's keys are exactly the `name()` values of the collected classes |
| `Introspection.Registry` | rambo/__init__.py:249 | the registry built by a dict comprehension keyed by `name()` (stated by `Introspection.RegistryKeys`, `RegistryLastWins` and `RegistryEntries`) |
| `Introspection.RegistryLastWins` | rambo/__init__.py:249 | of the classes sharing a key, the one collected last is registered, without error |
| `Introspection.RegistryEntries` | rambo/discovery/__init__.py:24 | every registered class was collected and is registered under its own `name()` |
| `Args.Bound` | rambo/entrypoint/__init__.py:23 | a slice bound is clamped to the sequence, and a bound already inside the sequence is kept |
| `Args.Slice` | rambo/entrypoint/__init__.py:23-25 | Python slicing: an in-range slice is the plain subsequence, a start past the end gives nothing, and no slice is longer than the sequence |
| `Args.ZeroStopIsAbsent` | rambo/entrypoint/__init__.py:22-25 | a stop index of 0 is falsy and behaves as no stop index |
| `Args.OpenWindow` | rambo/entrypoint/__init__.py:25 | without a stop index the window is the tail of argv from the start index (the single-action handler from 2, the multi-action handler from 3) |
| `Args.OneTokenWindow` | rambo/discovery/__init__.py:40 | the window `argv[k:k+1]` holds exactly the token at `k`, or nothing when argv is shorter |
| `Args.ParsePositionals` | rambo/configs/rambo_config.py:113-118 | positional parsing succeeds exactly when there is one token per positional and every token is among that positional's `choices`; the values are the tokens; any failure is a usage error |
| `Config.Attr` | rambo/configs/rambo_config.py:24 | a kept keyword argument is stored under its own name prefixed by `_`: the first character is `_` and the rest is the name |
| `Config.OptionalAttrs` | rambo/configs/rambo_config.py:20-26 | after the loop, a private attribute exists for each optional keyword exactly when it was passed, it holds the passed value, and there are no others |
| `Config.Construct` | rambo/__init__.py:33-45 | the constructor loop builds exactly the configuration whose optional attributes are the ones passed |
| `Config.OptionalSections` | rambo/configs/rambo_config.py:28-34 | `db_connections` and `environment` read back what was passed, and `{}` otherwise |
| `Config.ExtraKwargsIgnored` | rambo/__init__.py:39-45 | keyword arguments other than `db_connections` and `environment` have no effect on the configuration |
| `Config.AccessorDefaults` | rambo/configs/rambo_config.py:28-58 | with no optional sections or keys, the accessors never fail and return their defaults (`{}`, `''`, `False`, no env file), and `get_app_config` raises `AppConfigFileNotSet` |
| `Config.RamboConfig.AppName` | rambo/configs/rambo_config.py:44-46 | `app_name` is the `name` entry of `app`, and a missing one is a `KeyError` |
| `Config.RamboConfig.DbConnections` | rambo/configs/rambo_config.py:29-30 | `db_connections` is the stored `_db_connections`, or `{}` when the constructor did not set it |
| `Config.RamboConfig.Environment` | rambo/configs/rambo_config.py:33-34 | `environment` is the stored `_environment`, or `{}` when the constructor did not set it |
| `Config.RamboConfig.LoadEnvFile` | rambo/configs/rambo_config.py:37-38 | `load_env_file` is the truthiness of `environment['load_env_file']`, false when absent |
| `Config.RamboConfig.EnvFileName` | rambo/configs/rambo_config.py:41-42 | `env_file_name` is `environment['env_file_name']`, or `''` when absent |
| `Config.RamboConfig.AppDescription` | rambo/configs/rambo_config.py:49-50 | `app_description` is `app['description']`, or `''` when absent |
| `Config.RamboConfig.IsPipPackage` | rambo/configs/rambo_config.py:53-54 | `is_pip_package` is `app['is_pip_package']`, or `False` when absent |
| `Config.RamboConfig.AppConfigFile` | rambo/configs/rambo_config.py:57-58 | `app_config_file` is `app['config_file']`, or `''` when absent |
| `Config.RamboConfig.Verbs` | rambo/configs/rambo_config.py:61-62 | `verbs` is `terminal['verbs']`, and a missing one raises `KeyError('verbs')` |
| `Config.RamboConfig.Nouns` | rambo/configs/rambo_config.py:65-66 | `nouns` is `terminal['nouns']`, and a missing one raises `KeyError('nouns')` |
| `Config.Row` | rambo/configs/rambo_config.py:70 | a verb's row of keys has one entry per noun, the `j`-th being `verb_noun_j` |
| `Config.Product` | rambo/configs/rambo_config.py:69-70 | the verb-noun map has exactly as many keys as verbs times nouns |
| `Config.ProductAt` | rambo/configs/rambo_config.py:69-70 | element `i*|nouns| + j` of the map is `verbs[i] + '_' + nouns[j]` (verb-major order) |
| `Config.ProductHas` | rambo/__init__.py:84-85 | every configured verb paired with every configured noun is a key of the map |
| `Config.RamboConfig.VerbNounMap` | rambo/configs/rambo_config.py:69-70 | `verb_noun_map` raises `KeyError('verbs')` when `verbs` is missing; with no verbs it is empty even when `nouns` is missing, because the comprehension reads `nouns` only inside its loop over the verbs; otherwise it raises `KeyError('nouns')` when `nouns` is missing and is the verb-major product |
| `Config.RamboConfig.FormattedActions` | rambo/configs/rambo_config.py:72-84 | the parser gets positional `verb` restricted to the verbs and then positional `noun` restricted to the nouns; a missing `verbs` is reported before a missing `nouns` |
| `Config.RamboConfig.ParseNounsAndVerbs` | rambo/__init__.py:128-133 | a missing `verbs` section raises `KeyError('verbs')`, and otherwise a missing `nouns` section raises `KeyError('nouns')`; with both present only `argv[1:3]` is parsed: it is accepted exactly when `argv[1]` is a verb and `argv[2]` a noun, giving `(argv[1], argv[2])`, and otherwise it is a usage error |
| `Config.ParsedKeyInMap` | rambo/configs/rambo_config.py:113-118 | an accepted `verb noun` always forms a key of `verb_noun_map` |
| `Config.RamboConfig.AppConfigPath` | rambo/configs/rambo_config.py:86-92 | `AppConfigFileNotSet` is raised exactly when `config_file` is unset or empty; `config_file: true` raises `TypeError`, since a path cannot be joined with a boolean; a non-empty file name gives `root_dir / config_file` |
| `Config.RamboConfig.ConnectionString` | rambo/__init__.py:112-118 | the result is `environ[db_connections[name]]` exactly when both lookups succeed; otherwise one `KeyError` names the connection, whichever lookup failed |
| `Config.UnknownAndUnsetAlike` | rambo/configs/rambo_config.py:97-103 | an unknown connection and an unset variable end in the same `KeyError` |
| `AppConfigs.AppConfig.constructor` | rambo/configs/app_config.py:3-4 | the store holds exactly the keyword arguments |
| `AppConfigs.AppConfig.Get` | rambo/configs/app_config.py:6-7 | `obj[k]` returns the stored value, and a key never set raises `KeyError` |
| `AppConfigs.AppConfig.Set` | rambo/configs/app_config.py:9-10 | after `obj[k] = v`, `obj[k]` is `v` even if `k` existed, and every other key reads as before |
| `VerbNoun.Dotted` | rambo/__init__.py:223 | the dotted module name has the path's length and no `/` |
| `VerbNoun.PathModulesOrder` | rambo/__init__.py:221-230 | per configured path, the package module comes first, then `<dotted>.<name>` for each listed submodule, in listing order |
| `VerbNoun.ImportPackage` | rambo/__init__.py:223-230 | the per-path import loop extends the imports by exactly that path's modules, or stops at the first that does not import |
| `VerbNoun.CollectModules` | rambo/__init__.py:221-230 | the outer import loop imports every configured path's modules in order, or fails with the first missing one |
| `VerbNoun.FilterEntryPoints` | rambo/__init__.py:237-247 | the filtering loop keeps exactly the collected classes of every module, module by module |
| `VerbNoun.IsCollected` | rambo/__init__.py:241-247 | the class filter of `collect_entry_points`: a class with `is_entry_point` (an `EntryPoint` subclass) for which it is true; other classes are skipped |
| `VerbNoun.CollectEntryPoints` | rambo/__init__.py:208-249 | `collect_entry_points` is the import step, then the filter, then the registry |
| `VerbNoun.CollectedKeys` | rambo/__init__.py:237-249 | a key is registered exactly when some `EntryPoint` subclass other than `EntryPoint` itself, found in an imported module, has that `name()` |
| `VerbNoun.EnvFilePath` | rambo/entrypoint/entrypoint.py:31-35 | `env_file_path` is `None` exactly when `load_env_file` is false; otherwise it is `cwd / env_file_name`, and a boolean `env_file_name` raises `TypeError` |
| `VerbNoun.Bootstrap` | rambo/entrypoint/entrypoint.py:74-79 | initialisation goes on exactly when no env file is wanted or the wanted file exists; a wanted file that does not exist raises `FileNotFoundError` naming `cwd / env_file_name`, and a boolean file name raises `TypeError` |
| `VerbNoun.Instantiate` | rambo/__init__.py:151-166 | the class name is validated before anything else; an abstract class fails next; the flags are parsed from `argv[3:]`, and a usage error happens exactly when they are rejected; a failing env-file bootstrap (such as the missing file) is raised as it is; after that, construction succeeds exactly when there is no user `__init__` or it returns, and a user `__init__` that raises gives `NotImplementedError` or the handler's own exception; a constructed handler holds the configuration, those flags, and the env file `cwd / env_file_name`, which exists |
| `VerbNoun.New` | rambo/entrypoint/entrypoint.py:37-40 | `new()`, step by step, constructs exactly what `Instantiate` describes |
| `VerbNoun.Dispatch` | rambo/__init__.py:259-276 | a missing `verbs` or `nouns` section raises its `KeyError` (`verbs` first); a rejected `verb noun` exits 2; a missing key exits 1; the run exits 0 exactly when the handler is found, constructed and `run()` returns; it exits 1 exactly when the key is missing or `new`/`run` raise `NotImplementedError`; any other failure of `new()` propagates as it is (a usage error exits 2), and any other exception from `run()` propagates; neither `NotImplementedError` nor a usage error ever escapes |
| `VerbNoun.RunEntryPoint` | rambo/__init__.py:252-276 | `run_entry_point` propagates a collection failure, and otherwise ends as `Dispatch` describes |
| `VerbNoun.MalformedNeverRuns` | rambo/__init__.py:164-166 | a registered handler whose key has two or more `_` never runs; dispatch to it always fails validation |
| `Actions.ActionsOf` | rambo/entrypoint/__init__.py:83 | at most one action per attribute |
| `Actions.ActionsOfAppend` | rambo/entrypoint/__init__.py:83 | listing distributes over concatenation, so actions are listed in definition order |
| `Actions.ActionsOfFirst` | rambo/entrypoint/__init__.py:83 | the first attribute contributes exactly one token, ahead of all later ones, when its name starts with `action`, and none otherwise |
| `Actions.GetActions` | rambo/entrypoint/__init__.py:82-83 | `get_actions()` lists the class's own attributes only, not inherited ones (stated by `Actions.ActionsListed`) |
| `Actions.ActionsListed` | rambo/entrypoint/__init__.py:81-83 | the listed actions are exactly the rewritten names of the class's own attributes that start with `action`, and none contains `_` |
| `Actions.ActionTokenOf` | rambo/entrypoint/__init__.py:83 | the method `action_<t>` is listed as `t` when `t` has no `_` and no `action` in it |
| `Actions.BareActionToken` | rambo/entrypoint/__init__.py:83 | the method named just `action` is listed as the empty token |
| `Actions.StripActionPrefix` | rambo/entrypoint/__init__.py:83 | `replace('action', '')` on `action` followed by a name without `action` leaves exactly that name |
| `Actions.SplitActionToken` | rambo/entrypoint/__init__.py:83 | the method `action_<a>_<b>` is listed as `<a><b>`: every `_` is dropped, not only the one after `action` |
| `Actions.Help` | rambo/entrypoint/__init__.py:85-94 | the loop that accumulates `help_msg` yields the header, one line per listed action, then the help block |
| `Actions.HelpText` | rambo/entrypoint/__init__.py:86-94 | the text `help()` returns: header, action lines, help block (stated by `Actions.HelpListsActions`) |
| `Actions.HelpListsActions` | rambo/entrypoint/__init__.py:86-94 | the help text starts with `available actions for command <name>`, holds `-> <action>` for each action right after the lines of the actions before it, and ends with the help block |
| `Actions.Execute` | rambo/entrypoint/__init__.py:113-124 | the method `action_<token>` is called exactly when it exists, own or inherited, and the call ends as that method ends; otherwise the token, the command's name and its listed actions are reported |
| `Actions.ListedActionRoutes` | rambo/entrypoint/__init__.py:83-124 | a plain token defined as `action_<t>` is listed, and `execute(t)` calls that method |
| `Actions.ListedTokenMayNotRoute` | rambo/entrypoint/__init__.py:113-124 | a method `action_<a>_<b>` is listed as `<a><b>`, yet `execute('<a><b>')` does not call it and reports the token as invalid (so `action_build_all` is listed as `buildall` and cannot be run by that name) |
| `Actions.SingleAction` | rambo/entrypoint/__init__.py:103-104 | without its own `action`, a single-action handler raises `NotImplementedError`; with one, that method runs |
| `Actions.Construct` | rambo/entrypoint/__init__.py:99-111 | a handler's own arguments are parsed from the argv tail at its start index, and construction fails with a usage error exactly when they are rejected; accepted arguments construct the handler exactly when there is no user `__init__` or it returns, and a user `__init__` that raises gives `NotImplementedError` or the handler's own exception |
| `Discovery.EntrypointModules` | rambo/discovery/__init__.py:15-17 | modules are listed from `<module>/entrypoints` and imported as `<module>.entrypoints.<name>`, in listing order |
| `Discovery.IsDiscovered` | rambo/discovery/__init__.py:20-23 | the class filter of discovery: a `BaseEntryPoint` subclass other than the two framework bases (stated by `Discovery.DiscoveredHandlers`) |
| `Discovery.DiscoverEntryPoints` | rambo/discovery/__init__.py:13-24 | the nested import-and-filter loop yields the registry of the kept classes of all listed modules, or the first import failure |
| `Discovery.DiscoveredHandlers` | rambo/discovery/__init__.py:19-24 | every registered handler passed the filter, is keyed by its own `name()`, and came from one of the imported modules |
| `Discovery.BaseEntryPointRegistered` | rambo/discovery/__init__.py:21-22 | `BaseEntryPoint` itself, when a handler module imports it, is registered under its `name()` |
| `Discovery.ListCommands` | rambo/discovery/__init__.py:29-31 | the loop accumulates one `\n -> <key><description>` line per handler, in registry order |
| `Discovery.CommandListing` | rambo/discovery/__init__.py:29-31 | the `commands` string: one line per handler in registry order (stated by `Discovery.ListsEveryCommand`) |
| `Discovery.ListsEveryCommand` | rambo/discovery/__init__.py:29-31 | each handler's line sits right after the lines of the handlers before it, with no separator between key and description |
| `Discovery.Finish` | rambo/discovery/__init__.py:44-45 | after the handler method, the process exits (with status 0) exactly when the method returned; a `NotImplementedError` from it propagates, and so does any other exception |
| `Discovery.Route` | rambo/discovery/__init__.py:33-58 | no command token exits 2; an unknown command raises `KeyError` naming it; a class of neither variant raises `NotImplementedError`; a multi-action command without an action token exits 2; a failing construction propagates its failure (a usage error exits 2); an exception from the handler's action (or the routed `action_<token>`) propagates; the run exits 0 exactly when that method returns; an invalid action token exits 0 with the report; only statuses 0 and 2 occur |
| `Discovery.RunEntrypoint` | rambo/discovery/__init__.py:27-58 | `run_entrypoint` propagates a discovery failure, and otherwise ends as `Route` describes |
| `Discovery.ListedActionRuns` | rambo/discovery/__init__.py:47-55 | when a multi-action command's arguments are accepted and it has no user `__init__` (or that returns), a plain listed action runs end to end: the run ends as that method ends, and it exits 0 exactly when the method returns |
| `ProjectActions.ValidateProjectName` | rambo/terminal/project_actions.py:60-64 | the scan raises `ValueError` exactly when some character of the name is disallowed |
| `ProjectActions.DisallowedArePunctuation` | rambo/terminal/project_actions.py:61 | every disallowed character is ASCII punctuation other than `-` and `_` |
| `ProjectActions.PlainNamesAccepted` | rambo/terminal/project_actions.py:61-64 | names made of letters, digits, `-`, `_` and spaces are accepted, the empty name included |
| `ProjectActions.NewProject.constructor` | rambo/terminal/project_actions.py:23-40 | the path fields are derived from the installed package directory, the working directory and the project name |
| `ProjectActions.NewProject.New` | rambo/terminal/project_actions.py:18-40 | the name is validated before any path is derived; a disallowed character raises `ValueError`, otherwise the project and configuration paths follow from the working directory and the name |
| `ProjectActions.NewProject.Run` | rambo/terminal/project_actions.py:42-93 | `pip install -e .` is run exactly when `--install` is set; the completion message comes last; only the configuration file and the main module are written, each from its own template |
| `ProjectActions.JoinRelative` | rambo/terminal/project_actions.py:33 | `base / part` for a non-empty part not starting with `/` is `base` then `/` then `part` |
| `ProjectActions.AcceptedNamePaths` | rambo/terminal/project_actions.py:33-40 | for an accepted non-empty name the project is `cwd/n`, the configuration file `cwd/n/n.yml`, and the entry points `cwd/n/entrypoints` |
| `ProjectActions.EmptyNameScaffoldsInPlace` | rambo/terminal/project_actions.py:33-34 | the empty name is accepted, and then the project directory is the working directory and the configuration file is `cwd/.yml` |
| `ProjectActions.CompletionNamesProject` | rambo/terminal/project_actions.py:55-58 | the completion message suggests running the project by name exactly when `--install` was set |

## Left out

- YAML parsing (`parse_config`, the loading step of `get_app_config`): the
  configuration is an already-parsed record. YAML scalars are strings or
  booleans; numbers and nested values are not modelled.
- Introspection: `importlib`, `pkgutil` and `inspect` are replaced by the
  `Packages` input.
  - Multiple inheritance is not modelled, and neither are classes that
    override `is_entry_point`.
  - A handler attribute is assumed callable.
- argparse internals:
  - usage and help text;
  - type conversion and flag semantics;
  - options starting with `-` (including `-h`);
  - abbreviations.

  A handler's own argument schema is the `Host.accepts` input. The positional
  parsers of the two engines keep only the token count and the `choices` test.
- The help text of the `command` and `action` positionals is built
  (`Discovery.CommandSpec`, `Discovery.ActionSpec`) but only shown by `-h`,
  which is not modelled.
- Printing and `exit`: these become an `Outcome` holding the exit status and
  the kind of message. The exact message wording and the traceback of an
  escaping exception are not modelled.
- `textwrap.dedent` in `help()`: the trailing help block is an input string.
- `dotenv.load_dotenv` and `os.environ` mutation: the env file's existence is
  checked, its contents are not loaded.
- Unicode: `isupper` and `lower` are modelled for ASCII only.
- Path normalisation by `pathlib`: `.` segments, repeated or trailing
  separators. `get_entrypoint_paths` is therefore the configured path strings
  themselves, in their count and order.
- User-written `__init__` methods: these are modelled as running after the
  framework's own initialisation. One that skips `super().__init__()` is not
  modelled.
- The calls to user code (`run`, `action`, `action_<token>`) are the
  `Host.invoke` input. What they do beyond how they complete is not modelled.
- `NewProject.run`'s scaffolding I/O (`mkdir`, `touch`, `read_text`,
  `format`, `write_text`, `subprocess.run`): it is an ordered list of effects.
  A failure of any of these steps is not modelled.
- `NewProject.template_rambo`'s text substitution: the rendered text is an
  opaque `Rendered(template, name)` value.
- `parse_cmd_args` in `rambo/__init__.py` and `rambo/entrypoint/entrypoint.py`
  (parsing all of `sys.argv`) is not called by the modelled code and is not
  modelled.
- `setup.py` and `rambo/__main__.py` are not part of this model.
