/**
 * The command/action engine's runner: `collect_entry_points` imports every
 * submodule of `<module>/entrypoints`, keeps the `BaseEntryPoint` subclasses
 * other than the two framework variants and keys them by `name()`;
 * `run_entrypoint` lists the commands, parses the command token from
 * `argv[1:2]` and routes it by the handler's variant.
 */
module Discovery {
  import opened Results
  import opened Outcomes
  import opened Text
  import opened OrderedDict
  import opened Introspection
  import opened Args
  import opened Actions
  import Naming

  /**
   * Whether the collection loop keeps a class: a subclass of `BaseEntryPoint`
   * that is not `SingleActionEntryPoint` or `MultiActionEntryPoint` itself.
   * `BaseEntryPoint` itself passes.
   */
  predicate IsDiscovered(c: ClassInfo)
  {
    (c.lineage == Base || c.lineage == Single || c.lineage == Multi)
    && !(c.frameworkBase && (c.lineage == Single || c.lineage == Multi))
  }

  /** The directory whose submodules are the handler modules. */
  function EntrypointsDir(moduleName: string): string
  {
    moduleName + "/entrypoints"
  }

  /** The modules imported, one per listed submodule, in listing order. */
  function EntrypointModules(moduleName: string, p: Packages): (names: seq<string>)
    ensures |names| == |Listing(p, EntrypointsDir(moduleName))|
    ensures forall i :: 0 <= i < |names| ==>
      names[i] == moduleName + ".entrypoints." + Listing(p, EntrypointsDir(moduleName))[i]
  {
    var listing := Listing(p, EntrypointsDir(moduleName));
    seq(|listing|, i requires 0 <= i < |listing| => moduleName + ".entrypoints." + listing[i])
  }

  /** The registry `collect_entry_points(module_name)` returns, or the import error. */
  function Discovered(moduleName: string, p: Packages): Result<Dict<ClassInfo>, Failure>
  {
    match ImportAll(EntrypointModules(moduleName, p), p)
    case Err(f) => Err(f)
    case Ok(modules) => Ok(Registry(Candidates(modules, IsDiscovered)))
  }

  /**
   * `collect_entry_points`: each listed submodule is imported and its classes
   * filtered before the next one is imported; the first module that does not
   * import ends the collection with its error.
   */
  method DiscoverEntryPoints(moduleName: string, p: Packages) returns (r: Result<Dict<ClassInfo>, Failure>)
    ensures r == Discovered(moduleName, p)
  {
    var listing := Listing(p, EntrypointsDir(moduleName));
    ghost var names := EntrypointModules(moduleName, p);
    ghost var modules: seq<Module> := [];
    var entrypoints: seq<ClassInfo> := [];
    var i := 0;
    while i < |listing|
      invariant 0 <= i <= |listing|
      invariant ImportAll(names[..i], p) == Ok(modules)
      invariant entrypoints == Candidates(modules, IsDiscovered)
    {
      var name := moduleName + ".entrypoints." + listing[i];
      assert names[i] == name;
      if name !in p.importable {
        ImportStopsAt(names, i, p);
        return Err(ModuleNotFound(name));
      }
      ImportNext(names, i, p);
      var imported := p.importable[name];
      var found := SelectClasses(imported.members, IsDiscovered);
      assert (modules + [imported])[..|modules|] == modules;
      modules := modules + [imported];
      entrypoints := entrypoints + found;
      i := i + 1;
    }
    assert names[..i] == names;
    return Ok(Registry(entrypoints));
  }

  /**
   * Every registered handler passed the discovery filter, is registered under
   * its own `name()`, and was found in one of the imported modules.
   */
  lemma DiscoveredHandlers(moduleName: string, p: Packages, key: string)
    requires Discovered(moduleName, p).Ok? && Get(Discovered(moduleName, p).value, key).Some?
    ensures IsDiscovered(Get(Discovered(moduleName, p).value, key).value)
    ensures Naming.Name(Get(Discovered(moduleName, p).value, key).value.name) == key
    ensures exists i :: (0 <= i < |ImportAll(EntrypointModules(moduleName, p), p).value|
      && ClassMember(Get(Discovered(moduleName, p).value, key).value) in ImportAll(EntrypointModules(moduleName, p), p).value[i].members)
  {
    var modules := ImportAll(EntrypointModules(moduleName, p), p).value;
    RegistryEntries(Candidates(modules, IsDiscovered), key);
  }

  /**
   * `BaseEntryPoint` itself is not filtered out: a handler module that
   * imports it gets it registered under its `name()`.
   */
  lemma BaseEntryPointRegistered(modules: seq<Module>, i: nat, base: ClassInfo)
    requires i < |modules| && ClassMember(base) in modules[i].members
    requires base.lineage == Base && base.frameworkBase
    ensures Naming.Name(base.name) in Keys(Registry(Candidates(modules, IsDiscovered)))
  {
    var cs := Candidates(modules, IsDiscovered);
    assert IsDiscovered(base);
    assert base in cs by {
      assert ClassMember(base) in modules[i].members;
    }
    var k :| 0 <= k < |cs| && cs[k] == base;
    assert Naming.Name(cs[k].name) == Naming.Name(base.name);
    RegistryKeys(cs, Naming.Name(base.name));
  }

  /** One line of the command listing: no separator between key and description. */
  function CommandLine(entry: (string, ClassInfo)): string
  {
    "\n -> " + entry.0 + entry.1.description
  }

  /** The `commands` string: one line per registered handler, in registry order. */
  function CommandListing(registry: Dict<ClassInfo>): string
  {
    if registry == [] then ""
    else CommandListing(registry[..|registry| - 1]) + CommandLine(registry[|registry| - 1])
  }

  lemma {:induction false} CommandListingAppend(a: Dict<ClassInfo>, b: Dict<ClassInfo>)
    ensures CommandListing(a + b) == CommandListing(a) + CommandListing(b)
  {
    if b == [] {
      assert a + b == a;
    } else {
      var b' := b[..|b| - 1];
      assert (a + b)[..|a + b| - 1] == a + b';
      CommandListingAppend(a, b');
    }
  }

  /** The listing loop of `run_entrypoint`. */
  method ListCommands(registry: Dict<ClassInfo>) returns (commands: string)
    ensures commands == CommandListing(registry)
  {
    commands := "";
    var i := 0;
    while i < |registry|
      invariant 0 <= i <= |registry|
      invariant commands == CommandListing(registry[..i])
    {
      assert registry[..i + 1][..i] == registry[..i];
      var (key, value) := registry[i];
      commands := commands + "\n -> " + key + value.description;
      i := i + 1;
    }
    assert registry[..i] == registry;
  }

  /**
   * The listing holds the line of entry `i` right after the lines of the
   * entries before it, and its length is the sum of the lines' lengths.
   */
  lemma ListsEveryCommand(registry: Dict<ClassInfo>, i: nat)
    requires i < |registry|
    ensures OccursAt(CommandListing(registry), CommandLine(registry[i]), |CommandListing(registry[..i])|)
    ensures |CommandListing(registry)| == |CommandListing(registry[..i + 1])| + |CommandListing(registry[i + 1..])|
  {
    var line := CommandLine(registry[i]);
    assert registry == registry[..i] + [registry[i]] + registry[i + 1..];
    assert registry[..i + 1] == registry[..i] + [registry[i]];
    CommandListingAppend(registry[..i + 1], registry[i + 1..]);
    CommandListingAppend(registry[..i], [registry[i]]);
    assert [registry[i]][..0] == [];
    assert CommandListing([registry[i]]) == line;
    var before := CommandListing(registry[..i]);
    var listing := CommandListing(registry);
    assert listing == before + line + CommandListing(registry[i + 1..]);
    assert listing[|before|..|before| + |line|] == line;
  }

  /** The positional `command` of `main_command`, whose help lists the commands. */
  function CommandSpec(commands: string): ArgSpec
  {
    ArgSpec("command", "The available commands are\n" + commands + "\n", None)
  }

  /** The positional `action` of `action_command`, whose help is the handler's `help()`. */
  function ActionSpec(c: ClassInfo): ArgSpec
  {
    ArgSpec("action", HelpText(c), None)
  }

  /** How the process ends once the handler method has been called and `exit()` follows. */
  function Finish(done: Completion): (o: Outcome)
    ensures o == Exited(0, NoMessage) <==> done == Returned
    ensures o.Exited? <==> done == Returned
    ensures done == RaisedNotImplemented <==> o == Raised(NotImplementedError)
    ensures done == RaisedOther <==> o == Raised(HandlerError)
  {
    match done
    case Returned => Exited(0, NoMessage)
    case RaisedNotImplemented => Raised(NotImplementedError)
    case RaisedOther => Raised(HandlerError)
  }

  /** The handler runs to completion: its action (or the routed `action_<token>`) returned. */
  predicate Completes(c: ClassInfo, argv: seq<string>, host: Host)
  {
    (c.lineage == Single && Construct(c, argv, 2, host).Ok? && SingleAction(c, host) == Returned)
    || (c.lineage == Multi && |argv| >= 3 && Construct(c, argv, 3, host).Ok?
        && Execute(c, argv[2], host) == Invoked(Returned))
  }

  /**
   * `run_entrypoint` once the registry is built: the command token is
   * `argv[1]`; a single-action handler is constructed on `argv[2:]` and its
   * `action()` called; a multi-action handler takes its action token from
   * `argv[2]`, is constructed on `argv[3:]` and `execute`s the token; any
   * other registered class raises `NotImplementedError`.
   */
  function Route(registry: Dict<ClassInfo>, argv: seq<string>, host: Host): (o: Outcome)
    ensures |argv| < 2 ==> o == Exited(2, UsageText)
    ensures |argv| >= 2 && argv[1] !in Keys(registry) ==> o == Raised(KeyError(argv[1]))
    ensures (|argv| >= 2 && Get(registry, argv[1]).Some? && Get(registry, argv[1]).value.lineage != Single
      && Get(registry, argv[1]).value.lineage != Multi) ==> o == Raised(NotImplementedError)
    ensures (|argv| == 2 && Get(registry, argv[1]).Some? && Get(registry, argv[1]).value.lineage == Multi)
      ==> o == Exited(2, UsageText)
    ensures o == Exited(0, NoMessage) <==>
      |argv| >= 2 && Get(registry, argv[1]).Some? && Completes(Get(registry, argv[1]).value, argv, host)
    ensures o.Exited? && o.message.InvalidAction? <==>
      (|argv| >= 3 && Get(registry, argv[1]).Some? && Get(registry, argv[1]).value.lineage == Multi
       && Construct(Get(registry, argv[1]).value, argv, 3, host).Ok?
       && !Get(registry, argv[1]).value.HasAttr("action_" + argv[2]))
    ensures o.Exited? && o.message.InvalidAction? ==> (o.code == 0
      && o.message == InvalidAction(argv[2], Naming.Name(Get(registry, argv[1]).value.name),
                                    GetActions(Get(registry, argv[1]).value)))
    ensures o.Exited? ==> o.code == 0 || o.code == 2
    ensures (|argv| >= 2 && Get(registry, argv[1]).Some? && Get(registry, argv[1]).value.lineage == Single) ==>
      var c := Get(registry, argv[1]).value;
      (Construct(c, argv, 2, host).Err? ==> o == Terminate(Construct(c, argv, 2, host).error))
      && (Construct(c, argv, 2, host).Ok? && SingleAction(c, host) == RaisedNotImplemented
          ==> o == Raised(NotImplementedError))
      && (Construct(c, argv, 2, host).Ok? && SingleAction(c, host) == RaisedOther ==> o == Raised(HandlerError))
    ensures (|argv| >= 3 && Get(registry, argv[1]).Some? && Get(registry, argv[1]).value.lineage == Multi) ==>
      var c := Get(registry, argv[1]).value;
      (Construct(c, argv, 3, host).Err? ==> o == Terminate(Construct(c, argv, 3, host).error))
      && ((Construct(c, argv, 3, host).Ok? && c.HasAttr("action_" + argv[2])
           && host.invoke(c.name, "action_" + argv[2]) == RaisedNotImplemented) ==> o == Raised(NotImplementedError))
      && ((Construct(c, argv, 3, host).Ok? && c.HasAttr("action_" + argv[2])
           && host.invoke(c.name, "action_" + argv[2]) == RaisedOther) ==> o == Raised(HandlerError))
  {
    OneTokenWindow(argv, 1);
    match ParsePositionals([CommandSpec(CommandListing(registry))], ArgWindow(argv, 1, Some(2)))
    case Err(f) => Terminate(f)
    case Ok(commandNs) =>
      match Get(registry, commandNs[0])
      case None => Raised(KeyError(commandNs[0]))
      case Some(entrypoint) =>
        if entrypoint.lineage == Single then
          match Construct(entrypoint, argv, 2, host)
          case Err(f) => Terminate(f)
          case Ok(_) => Finish(SingleAction(entrypoint, host))
        else if entrypoint.lineage == Multi then
          OneTokenWindow(argv, 2);
          match ParsePositionals([ActionSpec(entrypoint)], ArgWindow(argv, 2, Some(3)))
          case Err(f) => Terminate(f)
          case Ok(actionNs) =>
            match Construct(entrypoint, argv, 3, host)
            case Err(f) => Terminate(f)
            case Ok(_) =>
              match Execute(entrypoint, actionNs[0], host)
              case NotAnAction(message) => Exited(0, message)
              case Invoked(done) => Finish(done)
        else Raised(NotImplementedError)
  }

  /**
   * `run_entrypoint`: discover, list the commands, parse the command token,
   * look it up and route it by variant.
   */
  method RunEntrypoint(moduleName: string, p: Packages, argv: seq<string>, host: Host) returns (o: Outcome)
    ensures Discovered(moduleName, p).Err? ==> o == Raised(Discovered(moduleName, p).error)
    ensures Discovered(moduleName, p).Ok? ==> o == Route(Discovered(moduleName, p).value, argv, host)
  {
    var entrypoints := DiscoverEntryPoints(moduleName, p);
    if entrypoints.Err? {
      return Raised(entrypoints.error);
    }
    var registry := entrypoints.value;
    var commands := ListCommands(registry);
    var commandNs := ParsePositionals([CommandSpec(commands)], ArgWindow(argv, 1, Some(2)));
    if commandNs.Err? {
      return Terminate(commandNs.error);
    }
    var found := Get(registry, commandNs.value[0]);
    if found.None? {
      return Raised(KeyError(commandNs.value[0]));
    }
    var entrypoint := found.value;
    if entrypoint.lineage == Single {
      var constructed := Construct(entrypoint, argv, 2, host);
      if constructed.Err? {
        return Terminate(constructed.error);
      }
      return Finish(SingleAction(entrypoint, host));
    } else if entrypoint.lineage == Multi {
      var help := Help(entrypoint);
      var actionNs := ParsePositionals([ArgSpec("action", help, None)], ArgWindow(argv, 2, Some(3)));
      if actionNs.Err? {
        return Terminate(actionNs.error);
      }
      var constructed := Construct(entrypoint, argv, 3, host);
      if constructed.Err? {
        return Terminate(constructed.error);
      }
      var executed := Execute(entrypoint, actionNs.value[0], host);
      if executed.NotAnAction? {
        return Exited(0, executed.message);
      }
      return Finish(executed.done);
    } else {
      return Raised(NotImplementedError);
    }
  }

  /**
   * A listed action of a multi-action command runs end to end: the token in
   * `argv[2]` is listed by `get_actions` and the run ends as the method
   * `action_<token>` ends.
   */
  lemma ListedActionRuns(registry: Dict<ClassInfo>, argv: seq<string>, host: Host)
    requires |argv| >= 3 && Get(registry, argv[1]).Some? && Get(registry, argv[1]).value.lineage == Multi
    requires '_' !in argv[2] && !Contains(argv[2], "action")
    requires "action_" + argv[2] in Get(registry, argv[1]).value.ownAttrs
    requires host.accepts(Get(registry, argv[1]).value.name, argv[3..])
    requires !Get(registry, argv[1]).value.HasAttr("__init__")
      || host.invoke(Get(registry, argv[1]).value.name, "__init__") == Returned
    ensures argv[2] in GetActions(Get(registry, argv[1]).value)
    ensures Route(registry, argv, host) == Finish(host.invoke(Get(registry, argv[1]).value.name, "action_" + argv[2]))
    ensures Route(registry, argv, host) == Exited(0, NoMessage)
      <==> host.invoke(Get(registry, argv[1]).value.name, "action_" + argv[2]) == Returned
  {
    OpenWindow(argv, 3);
    ListedActionRoutes(Get(registry, argv[1]).value, argv[2], host);
  }
}
