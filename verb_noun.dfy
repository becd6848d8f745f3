/**
 * The verb/noun engine: `collect_entry_points` imports every configured
 * entry-point package and its submodules, keeps the `EntryPoint` subclasses
 * and keys them by `name()`; `run_entry_point` parses `verb noun` from the
 * command line, looks up `verb_noun`, constructs the handler with `new()` and
 * calls `run()`, mapping the result to an exit status.
 */
module VerbNoun {
  import opened Results
  import opened Outcomes
  import opened Text
  import opened OrderedDict
  import opened Introspection
  import opened Config
  import opened Args
  import Naming

  /** `entry_point_path.as_posix().replace('/', '.')`. */
  function Dotted(path: string): (d: string)
    ensures |d| == |path| && '/' !in d
  {
    ReplaceChar(path, '/', '.')
  }

  /** The modules imported for one configured path: the package, then each submodule in listing order. */
  function PathModules(path: string, p: Packages): seq<string>
  {
    var listing := Listing(p, path);
    [Dotted(path)] + seq(|listing|, j requires 0 <= j < |listing| => Dotted(path) + "." + listing[j])
  }

  /** The package comes first, then `<dotted>.<name>` for each listed submodule, in listing order. */
  lemma PathModulesOrder(path: string, p: Packages)
    ensures |PathModules(path, p)| == 1 + |Listing(p, path)|
    ensures PathModules(path, p)[0] == Dotted(path)
    ensures forall j :: 0 <= j < |Listing(p, path)| ==>
      PathModules(path, p)[j + 1] == Dotted(path) + "." + Listing(p, path)[j]
  {
  }

  /** The modules imported for all configured paths, path by path. */
  function ModuleNames(paths: seq<string>, p: Packages): seq<string>
  {
    if paths == [] then []
    else ModuleNames(paths[..|paths| - 1], p) + PathModules(paths[|paths| - 1], p)
  }

  lemma {:induction false} ModuleNamesAppend(a: seq<string>, b: seq<string>, p: Packages)
    ensures ModuleNames(a + b, p) == ModuleNames(a, p) + ModuleNames(b, p)
  {
    if b == [] {
      assert a + b == a;
    } else {
      var b', last := b[..|b| - 1], b[|b| - 1];
      assert (a + b)[..|a + b| - 1] == a + b';
      assert (a + b)[|a + b| - 1] == last;
      ModuleNamesAppend(a, b', p);
      assert ModuleNames(a + b, p) == ModuleNames(a + b', p) + PathModules(last, p);
      assert ModuleNames(b, p) == ModuleNames(b', p) + PathModules(last, p);
    }
  }

  /** The imports for one configured path: the package, then its submodules in listing order. */
  method ImportPackage(path: string, p: Packages, ghost before: seq<string>, imported: seq<Module>)
    returns (r: Result<seq<Module>, Failure>)
    requires ImportAll(before, p) == Ok(imported)
    ensures r == ImportAll(before + PathModules(path, p), p)
  {
    ghost var all := before + PathModules(path, p);
    PathModulesOrder(path, p);
    assert all[..|before|] == before;
    var dotted := Dotted(path);
    if dotted !in p.importable {
      ImportStopsAt(all, |before|, p);
      return Err(ModuleNotFound(dotted));
    }
    ImportNext(all, |before|, p);
    var modules := imported + [p.importable[dotted]];
    var listing := Listing(p, path);
    var j := 0;
    while j < |listing|
      invariant 0 <= j <= |listing|
      invariant ImportAll(all[..|before| + j + 1], p) == Ok(modules)
    {
      var name := dotted + "." + listing[j];
      assert all[|before| + j + 1] == name;
      if name !in p.importable {
        ImportStopsAt(all, |before| + j + 1, p);
        return Err(ModuleNotFound(name));
      }
      ImportNext(all, |before| + j + 1, p);
      modules := modules + [p.importable[name]];
      j := j + 1;
    }
    assert all[..|before| + j + 1] == all;
    return Ok(modules);
  }

  /**
   * The import loop of `collect_entry_points`: for each path, the package and
   * then its submodules are imported in order; the first module that does not
   * import ends the collection with its error.
   */
  method CollectModules(paths: seq<string>, p: Packages) returns (r: Result<seq<Module>, Failure>)
    ensures r == ImportAll(ModuleNames(paths, p), p)
  {
    var modules: seq<Module> := [];
    var i := 0;
    while i < |paths|
      invariant 0 <= i <= |paths|
      invariant ImportAll(ModuleNames(paths[..i], p), p) == Ok(modules)
    {
      assert paths[..i + 1][..i] == paths[..i];
      var imported := ImportPackage(paths[i], p, ModuleNames(paths[..i], p), modules);
      if imported.Err? {
        ModuleNamesAppend(paths[..i + 1], paths[i + 1..], p);
        assert paths[..i + 1] + paths[i + 1..] == paths;
        ImportErrPersists(ModuleNames(paths[..i + 1], p), ModuleNames(paths[i + 1..], p), p);
        return imported;
      }
      modules := imported.value;
      i := i + 1;
    }
    assert paths[..i] == paths;
    return Ok(modules);
  }

  /**
   * Whether the collection loop keeps a class: calling `is_entry_point()`
   * succeeds only on `EntryPoint` subclasses (others lack the attribute and
   * are skipped) and is false only for the class named `EntryPoint`.
   */
  predicate IsCollected(c: ClassInfo)
  {
    c.lineage == Legacy && Naming.IsEntryPoint(c.name)
  }

  /** The filtering loop of `collect_entry_points`, module by module. */
  method FilterEntryPoints(modules: seq<Module>) returns (entryPoints: seq<ClassInfo>)
    ensures entryPoints == Candidates(modules, IsCollected)
  {
    entryPoints := [];
    var i := 0;
    while i < |modules|
      invariant 0 <= i <= |modules|
      invariant entryPoints == Candidates(modules[..i], IsCollected)
    {
      var found := SelectClasses(modules[i].members, IsCollected);
      assert modules[..i + 1][..i] == modules[..i];
      entryPoints := entryPoints + found;
      i := i + 1;
    }
    assert modules[..i] == modules;
  }

  /** The registry `collect_entry_points` returns for a configuration, or the import error. */
  function Collected(config: RamboConfig, p: Packages): Result<Dict<ClassInfo>, Failure>
  {
    match ImportAll(ModuleNames(config.entrypointPaths, p), p)
    case Err(f) => Err(f)
    case Ok(modules) => Ok(Registry(Candidates(modules, IsCollected)))
  }

  /** `collect_entry_points`: imports, filters, and builds the registry. */
  method CollectEntryPoints(config: RamboConfig, p: Packages) returns (r: Result<Dict<ClassInfo>, Failure>)
    ensures r == Collected(config, p)
  {
    var modules := CollectModules(config.entrypointPaths, p);
    if modules.Err? {
      return Err(modules.error);
    }
    var entryPoints := FilterEntryPoints(modules.value);
    return Ok(Registry(entryPoints));
  }

  /**
   * The registry's keys are exactly the keys of the `EntryPoint` subclasses
   * (other than `EntryPoint` itself) found in the imported modules.
   */
  lemma CollectedKeys(modules: seq<Module>, key: string)
    ensures key in Keys(Registry(Candidates(modules, IsCollected))) <==>
      exists c: ClassInfo :: IsCollected(c) && Naming.Name(c.name) == key
        && exists i :: 0 <= i < |modules| && ClassMember(c) in modules[i].members
  {
    var cs := Candidates(modules, IsCollected);
    RegistryKeys(cs, key);
    if key in Keys(Registry(cs)) {
      var i :| 0 <= i < |cs| && Naming.Name(cs[i].name) == key;
      assert cs[i] in cs;
    } else {
      forall c: ClassInfo | IsCollected(c) && exists i :: 0 <= i < |modules| && ClassMember(c) in modules[i].members
        ensures Naming.Name(c.name) != key
      {
        var k :| 0 <= k < |cs| && cs[k] == c;
      }
    }
  }

  /** A constructed handler: its configuration, parsed flags and env file. */
  datatype Instance = Instance(cls: ClassInfo, rambo: RamboConfig, cmdArgs: seq<string>, envFilePath: Option<string>)

  /** `env_file_path` as `__init__` derives it: none unless the env file is to be loaded. */
  function EnvFilePath(config: RamboConfig, cwd: string): (r: Result<Option<string>, Failure>)
    ensures r == Ok(None) <==> !config.LoadEnvFile()
    ensures r.Err? <==> config.LoadEnvFile() && config.EnvFileName().Bool?
    ensures r.Ok? && r.value.Some? ==> r.value.value == Join(cwd, config.EnvFileName().text)
    ensures r.Err? ==> r.error == TypeError
  {
    if !config.LoadEnvFile() then Ok(None)
    else match config.EnvFileName()
      case Bool(_) => Err(TypeError)
      case Str(name) => Ok(Some(Join(cwd, name)))
  }

  /**
   * The bootstrap step of `__init__` with `load_app_env`: when an env file is
   * to be loaded it must exist, otherwise `FileNotFoundError` names its path.
   */
  function Bootstrap(config: RamboConfig, host: Host): (r: Result<Option<string>, Failure>)
    ensures r.Ok? <==> (EnvFilePath(config, host.cwd).Ok? &&
      (EnvFilePath(config, host.cwd).value.Some? ==> host.fileExists(EnvFilePath(config, host.cwd).value.value)))
    ensures r.Ok? ==> r == EnvFilePath(config, host.cwd)
    ensures r.Err? && r.error.FileNotFound? ==>
      config.EnvFileName().Str? && r.error.path == Join(host.cwd, config.EnvFileName().text)
    ensures EnvFilePath(config, host.cwd).Err? ==> r == EnvFilePath(config, host.cwd)
    ensures (EnvFilePath(config, host.cwd).Ok? && EnvFilePath(config, host.cwd).value.Some?
      && !host.fileExists(EnvFilePath(config, host.cwd).value.value))
      ==> r == Err(FileNotFound(EnvFilePath(config, host.cwd).value.value))
  {
    match EnvFilePath(config, host.cwd)
    case Err(f) => Err(f)
    case Ok(None) => Ok(None)
    case Ok(Some(path)) => if host.fileExists(path) then Ok(Some(path)) else Err(FileNotFound(path))
  }

  /** The key of a class passes `_validate_class_name`. */
  predicate ValidKey(className: string)
  {
    Count(Naming.Name(className), '_') <= 1
  }

  /** How a user-defined method ends, as the exception it raises. */
  function Raising(c: Completion): Result<(), Failure>
  {
    match c
    case Returned => Ok(())
    case RaisedNotImplemented => Err(NotImplementedError)
    case RaisedOther => Err(HandlerError)
  }

  /**
   * `cls.new()`: the class name is validated first; then instantiation fails
   * for a class that does not define `run`; then `__init__` parses the
   * handler's flags from `argv[3:]` and bootstraps the env file; a
   * user-defined `__init__` runs last.
   */
  function Instantiate(cls: ClassInfo, config: RamboConfig, argv: seq<string>, host: Host): (r: Result<Instance, Failure>)
    ensures !ValidKey(cls.name) ==> r == Err(MalformedClassName)
    ensures ValidKey(cls.name) && !cls.HasAttr("run") ==> r == Err(TypeError)
    ensures r == Err(UsageError) <==>
      ValidKey(cls.name) && cls.HasAttr("run") && !host.accepts(cls.name, ArgWindow(argv, 3, None))
    ensures r.Ok? ==> (r.value.cls == cls && r.value.rambo == config
      && r.value.cmdArgs == ArgWindow(argv, 3, None)
      && (r.value.envFilePath.None? <==> !config.LoadEnvFile())
      && (r.value.envFilePath.Some? ==> host.fileExists(r.value.envFilePath.value)))
    ensures (ValidKey(cls.name) && cls.HasAttr("run") && host.accepts(cls.name, ArgWindow(argv, 3, None))
      && Bootstrap(config, host).Err?) ==> r == Err(Bootstrap(config, host).error)
    ensures (ValidKey(cls.name) && cls.HasAttr("run") && host.accepts(cls.name, ArgWindow(argv, 3, None))
      && Bootstrap(config, host).Ok?) ==>
      (r.Ok? <==> !cls.HasAttr("__init__") || host.invoke(cls.name, "__init__") == Returned)
      && (cls.HasAttr("__init__") && host.invoke(cls.name, "__init__") == RaisedNotImplemented
          ==> r == Err(NotImplementedError))
      && (cls.HasAttr("__init__") && host.invoke(cls.name, "__init__") == RaisedOther ==> r == Err(HandlerError))
    ensures r.Ok? ==> Ok(r.value.envFilePath) == Bootstrap(config, host)
  {
    if !ValidKey(cls.name) then Err(MalformedClassName)
    else if !cls.HasAttr("run") then Err(TypeError)
    else
      var flags := ArgWindow(argv, 3, None);
      if !host.accepts(cls.name, flags) then Err(UsageError)
      else match Bootstrap(config, host)
        case Err(f) => Err(f)
        case Ok(envFilePath) =>
          match if cls.HasAttr("__init__") then Raising(host.invoke(cls.name, "__init__")) else Ok(())
          case Err(f) => Err(f)
          case Ok(_) => Ok(Instance(cls, config, flags, envFilePath))
  }

  /** `new()` followed by `__init__`, step by step; validation is the counting loop. */
  method New(cls: ClassInfo, config: RamboConfig, argv: seq<string>, host: Host) returns (r: Result<Instance, Failure>)
    ensures r == Instantiate(cls, config, argv, host)
  {
    var valid := Naming.ValidateClassName(cls.name);
    if !valid {
      return Err(MalformedClassName);
    }
    if !cls.HasAttr("run") {
      return Err(TypeError);
    }
    var cmdArgs := ArgWindow(argv, 3, None);
    if !host.accepts(cls.name, cmdArgs) {
      return Err(UsageError);
    }
    var envFilePath := EnvFilePath(config, host.cwd);
    if envFilePath.Err? {
      return Err(envFilePath.error);
    }
    if envFilePath.value.Some? && !host.fileExists(envFilePath.value.value) {
      return Err(FileNotFound(envFilePath.value.value));
    }
    if cls.HasAttr("__init__") {
      var init := Raising(host.invoke(cls.name, "__init__"));
      if init.Err? {
        return Err(init.error);
      }
    }
    return Ok(Instance(cls, config, cmdArgs, envFilePath.value));
  }

  /** The command line names a configured verb and noun. */
  predicate Accepted(config: RamboConfig, argv: seq<string>)
  {
    config.ParseNounsAndVerbs(argv).Ok?
  }

  /** The registry key the command line asks for. */
  function Key(argv: seq<string>): string
    requires |argv| >= 3
  {
    argv[1] + "_" + argv[2]
  }

  /** `new(...).run()` ended in `NotImplementedError`. */
  predicate NotImplementedRun(cls: ClassInfo, config: RamboConfig, argv: seq<string>, host: Host)
  {
    var instance := Instantiate(cls, config, argv, host);
    instance == Err(NotImplementedError) || (instance.Ok? && host.invoke(cls.name, "run") == RaisedNotImplemented)
  }

  /**
   * The outcome of `run_entry_point` once the registry is built: a missing
   * key and a `NotImplementedError` from `new` or `run` both exit 1 with the
   * "not yet implemented" message; a completed `run()` exits 0; other
   * exceptions propagate, and argparse errors exit 2.
   */
  function Dispatch(registry: Dict<ClassInfo>, config: RamboConfig, argv: seq<string>, host: Host): (o: Outcome)
    ensures config.Verbs().Ok? && config.Nouns().Ok? && !Accepted(config, argv) ==> o == Exited(2, UsageText)
    ensures Accepted(config, argv) && Key(argv) !in Keys(registry) ==> o == Exited(1, NotYetImplemented)
    ensures o == Exited(0, NoMessage) <==> (Accepted(config, argv) && Get(registry, Key(argv)).Some?
      && Instantiate(Get(registry, Key(argv)).value, config, argv, host).Ok?
      && host.invoke(Get(registry, Key(argv)).value.name, "run") == Returned)
    ensures o == Exited(1, NotYetImplemented) <==> (Accepted(config, argv)
      && (Get(registry, Key(argv)).Some? ==> NotImplementedRun(Get(registry, Key(argv)).value, config, argv, host)))
    ensures o.Raised? ==> o.failure != NotImplementedError && o.failure != UsageError
    ensures config.Verbs().Err? ==> o == Raised(KeyError("verbs"))
    ensures config.Verbs().Ok? && config.Nouns().Err? ==> o == Raised(KeyError("nouns"))
    ensures (Accepted(config, argv) && Get(registry, Key(argv)).Some?) ==>
      var cls := Get(registry, Key(argv)).value;
      ((Instantiate(cls, config, argv, host).Err? && Instantiate(cls, config, argv, host).error != NotImplementedError)
        ==> o == Terminate(Instantiate(cls, config, argv, host).error))
      && ((Instantiate(cls, config, argv, host).Ok? && host.invoke(cls.name, "run") == RaisedOther)
        ==> o == Raised(HandlerError))
  {
    match config.ParseNounsAndVerbs(argv)
    case Err(f) => Terminate(f)
    case Ok((verb, noun)) =>
      match Get(registry, verb + "_" + noun)
      case None => Exited(1, NotYetImplemented)
      case Some(cls) =>
        match Instantiate(cls, config, argv, host)
        case Err(f) => if f == NotImplementedError then Exited(1, NotYetImplemented) else Terminate(f)
        case Ok(_) =>
          match host.invoke(cls.name, "run")
          case Returned => Exited(0, NoMessage)
          case RaisedNotImplemented => Exited(1, NotYetImplemented)
          case RaisedOther => Raised(HandlerError)
  }

  /** `run_entry_point`: collect, parse, look up, construct, run, and exit with the code. */
  method RunEntryPoint(config: RamboConfig, p: Packages, argv: seq<string>, host: Host) returns (o: Outcome)
    ensures Collected(config, p).Err? ==> o == Raised(Collected(config, p).error)
    ensures Collected(config, p).Ok? ==> o == Dispatch(Collected(config, p).value, config, argv, host)
  {
    var entryPoints := CollectEntryPoints(config, p);
    if entryPoints.Err? {
      return Raised(entryPoints.error);
    }
    var ns := config.ParseNounsAndVerbs(argv);
    if ns.Err? {
      return Terminate(ns.error);
    }
    var key := ns.value.0 + "_" + ns.value.1;
    var exitCode := 0;
    var message := NoMessage;
    var found := Get(entryPoints.value, key);
    if found.None? {
      exitCode, message := 1, NotYetImplemented;
    } else {
      var cls := found.value;
      var entryPoint := New(cls, config, argv, host);
      if entryPoint.Err? {
        if entryPoint.error != NotImplementedError {
          return Terminate(entryPoint.error);
        }
        exitCode, message := 1, NotYetImplemented;
      } else {
        var ran := Raising(host.invoke(cls.name, "run"));
        if ran.Err? {
          if ran.error != NotImplementedError {
            return Raised(ran.error);
          }
          exitCode, message := 1, NotYetImplemented;
        }
      }
    }
    return Exited(exitCode, message);
  }

  /**
   * A registered handler whose name is not a valid key never runs: dispatch
   * to it ends in the validation error, whatever the rest of the input.
   */
  lemma MalformedNeverRuns(registry: Dict<ClassInfo>, config: RamboConfig, argv: seq<string>, host: Host)
    requires Accepted(config, argv)
    requires Get(registry, Key(argv)).Some? && !ValidKey(Get(registry, Key(argv)).value.name)
    ensures Dispatch(registry, config, argv, host) == Raised(MalformedClassName)
  {
  }
}
