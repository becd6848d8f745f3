/**
 * `RamboConfig`: the parsed `rambo` section of `rambo.yml`. The constructor
 * stores three required sections and copies the optional keyword arguments
 * `db_connections` and `environment` to private attributes; the accessors read
 * them with defaults. YAML scalars are strings or booleans.
 */
module Config {
  import opened Results
  import opened Outcomes
  import opened Text
  import opened Args

  /** A YAML scalar as the configuration uses it. */
  datatype Scalar = Str(text: string) | Bool(truth: bool)

  /** Python truthiness of a scalar. */
  predicate Truthy(s: Scalar)
  {
    match s
    case Str(t) => t != []
    case Bool(b) => b
  }

  /** A YAML mapping of scalars. */
  type Table = map<string, Scalar>

  /** `t.get(key, default)`. */
  function Lookup(t: Table, key: string, default: Scalar): Scalar
  {
    if key in t then t[key] else default
  }

  /** The keyword arguments the constructor keeps, in the order it visits them. */
  const OptionalKwargs: seq<string> := ["db_connections", "environment"]

  /** The private attribute a kept keyword argument is stored under. */
  function Attr(kwarg: string): (a: string)
    ensures |a| == |kwarg| + 1 && a[0] == '_' && a[1..] == kwarg
  {
    "_" + kwarg
  }

  /**
   * The private attributes after `setattr(self, f"_{k}", kwargs[k])` was
   * attempted for each `k` of `names` in turn, a missing `k` being skipped.
   */
  function OptionalAttrs(names: seq<string>, kwargs: map<string, Table>): (attrs: map<string, Table>)
    ensures forall k :: k in names ==> (Attr(k) in attrs <==> k in kwargs)
    ensures forall k :: k in names && k in kwargs ==> attrs[Attr(k)] == kwargs[k]
    ensures forall a :: a in attrs ==> exists k :: k in names && k in kwargs && a == Attr(k)
  {
    if names == [] then map[]
    else
      var prefix := names[..|names| - 1];
      var last := names[|names| - 1];
      assert names == prefix + [last];
      var attrs := OptionalAttrs(prefix, kwargs);
      if last in kwargs then attrs[Attr(last) := kwargs[last]] else attrs
  }

  /**
   * A configuration: the `app`, `entrypoint_paths` and `terminal` sections and
   * the private attributes set by the constructor.
   */
  datatype RamboConfig = RamboConfig(
    app: Table,
    entrypointPaths: seq<string>,
    terminal: map<string, seq<string>>,
    attrs: map<string, Table>)
  {
    /** `db_connections`: connection name to environment-variable name, `{}` if not configured. */
    function DbConnections(): (t: Table)
      ensures Attr("db_connections") in attrs ==> t == attrs[Attr("db_connections")]
      ensures Attr("db_connections") !in attrs ==> t == map[]
    {
      if Attr("db_connections") in attrs then attrs[Attr("db_connections")] else map[]
    }

    /** `environment`, `{}` if not configured. */
    function Environment(): (t: Table)
      ensures Attr("environment") in attrs ==> t == attrs[Attr("environment")]
      ensures Attr("environment") !in attrs ==> t == map[]
    {
      if Attr("environment") in attrs then attrs[Attr("environment")] else map[]
    }

    /** `load_env_file`: whether `environment['load_env_file']` is truthy. */
    predicate LoadEnvFile()
    {
      Truthy(Lookup(Environment(), "load_env_file", Str("")))
    }

    /** `env_file_name`: `environment['env_file_name']`, `''` if absent. */
    function EnvFileName(): (v: Scalar)
      ensures "env_file_name" in Environment() ==> v == Environment()["env_file_name"]
      ensures "env_file_name" !in Environment() ==> v == Str("")
    {
      Lookup(Environment(), "env_file_name", Str(""))
    }

    /** `app_description`: `app['description']`, `''` if absent. */
    function AppDescription(): (v: Scalar)
      ensures "description" in app ==> v == app["description"]
      ensures "description" !in app ==> v == Str("")
    {
      Lookup(app, "description", Str(""))
    }

    /** Present in the configuration module's copy only. */
    function IsPipPackage(): (v: Scalar)
      ensures "is_pip_package" in app ==> v == app["is_pip_package"]
      ensures "is_pip_package" !in app ==> v == Bool(false)
    {
      Lookup(app, "is_pip_package", Bool(false))
    }

    /** `app_config_file`: `app['config_file']`, `''` if absent. */
    function AppConfigFile(): (v: Scalar)
      ensures "config_file" in app ==> v == app["config_file"]
      ensures "config_file" !in app ==> v == Str("")
    {
      Lookup(app, "config_file", Str(""))
    }

    /** `app_name`: a required key. */
    function AppName(): (r: Result<Scalar, Failure>)
      ensures r.Ok? <==> "name" in app
      ensures r.Ok? ==> r.value == app["name"]
      ensures r.Err? ==> r.error == KeyError("name")
    {
      if "name" in app then Ok(app["name"]) else Err(KeyError("name"))
    }

    function Section(key: string): Result<seq<string>, Failure>
    {
      if key in terminal then Ok(terminal[key]) else Err(KeyError(key))
    }

    /** `verbs`: a required key of `terminal`. */
    function Verbs(): (r: Result<seq<string>, Failure>)
      ensures r.Ok? <==> "verbs" in terminal
      ensures r.Ok? ==> r.value == terminal["verbs"]
      ensures r.Err? ==> r.error == KeyError("verbs")
    {
      Section("verbs")
    }

    /** `nouns`: a required key of `terminal`. */
    function Nouns(): (r: Result<seq<string>, Failure>)
      ensures r.Ok? <==> "nouns" in terminal
      ensures r.Ok? ==> r.value == terminal["nouns"]
      ensures r.Err? ==> r.error == KeyError("nouns")
    {
      Section("nouns")
    }

    /**
     * `verb_noun_map`: every `verb_noun` key, verb-major. The comprehension
     * reads `nouns` only inside its loop over the verbs, so with no verbs a
     * missing `nouns` section is never looked up.
     */
    function VerbNounMap(): (r: Result<seq<string>, Failure>)
      ensures r.Ok? <==> Verbs().Ok? && (Verbs().value == [] || Nouns().Ok?)
      ensures r.Ok? && Verbs().value == [] ==> r.value == []
      ensures r.Ok? && Nouns().Ok? ==> r.value == Product(Verbs().value, Nouns().value)
      ensures Verbs().Err? ==> r == Err(KeyError("verbs"))
      ensures Verbs().Ok? && Verbs().value != [] && Nouns().Err? ==> r == Err(KeyError("nouns"))
    {
      match Verbs()
      case Err(f) => Err(f)
      case Ok(verbs) =>
        if verbs == [] then Ok([])
        else
          match Nouns()
          case Err(f) => Err(f)
          case Ok(nouns) => Ok(Product(verbs, nouns))
    }

    /**
     * `get_formatted_actions`: the positionals `verb` and `noun`, restricted
     * to the configured verbs and nouns. The verbs are read first.
     */
    function FormattedActions(): (r: Result<seq<ArgSpec>, Failure>)
      ensures r.Ok? <==> Verbs().Ok? && Nouns().Ok?
      ensures r.Ok? ==> (|r.value| == 2
        && r.value[0].dest == "verb" && r.value[0].choices == Some(Verbs().value)
        && r.value[1].dest == "noun" && r.value[1].choices == Some(Nouns().value))
      ensures Verbs().Err? ==> r == Err(KeyError("verbs"))
      ensures Verbs().Ok? && Nouns().Err? ==> r == Err(KeyError("nouns"))
    {
      match Verbs()
      case Err(f) => Err(f)
      case Ok(verbs) =>
        match Nouns()
        case Err(f) => Err(f)
        case Ok(nouns) =>
          Ok([ArgSpec("verb", "The action you would like to perform", Some(verbs)),
              ArgSpec("noun", "The element to act upon", Some(nouns))])
    }

    /**
     * `parse_nouns_and_verbs`: parses `argv[1:3]` against the formatted
     * actions, giving `(verb, noun)`.
     */
    function ParseNounsAndVerbs(argv: seq<string>): (r: Result<(string, string), Failure>)
      ensures r.Ok? <==> (Verbs().Ok? && Nouns().Ok?
        && |argv| >= 3 && argv[1] in Verbs().value && argv[2] in Nouns().value)
      ensures r.Ok? ==> r.value == (argv[1], argv[2])
      ensures r.Err? && Verbs().Ok? && Nouns().Ok? ==> r.error == UsageError
      ensures Verbs().Err? ==> r == Err(KeyError("verbs"))
      ensures Verbs().Ok? && Nouns().Err? ==> r == Err(KeyError("nouns"))
    {
      match FormattedActions()
      case Err(f) => Err(f)
      case Ok(specs) =>
        var window := Slice(argv, 1, 3);
        assert |argv| >= 3 ==> window == [argv[1], argv[2]];
        match ParsePositionals(specs, window)
        case Err(f) => Err(f)
        case Ok(tokens) => Ok((tokens[0], tokens[1]))
    }

    /**
     * The file `get_app_config` would load, `root_dir / app_config_file`: an
     * unset or empty file name raises `AppConfigFileNotSet`; a boolean one
     * cannot be joined to a path.
     */
    function AppConfigPath(rootDir: string): (r: Result<string, Failure>)
      ensures r == Err(AppConfigFileNotSet) <==> !Truthy(AppConfigFile())
      ensures r.Ok? <==> AppConfigFile().Str? && AppConfigFile().text != []
      ensures r.Ok? ==> r.value == Join(rootDir, AppConfigFile().text)
      ensures r.Err? && r.error != AppConfigFileNotSet ==> r.error == TypeError
      ensures AppConfigFile() == Bool(true) ==> r == Err(TypeError)
    {
      var file := AppConfigFile();
      if !Truthy(file) then Err(AppConfigFileNotSet)
      else if file.Bool? then Err(TypeError)
      else Ok(Join(rootDir, file.text))
    }

    /**
     * `get_db_connection_string(name)`: the value of the environment variable
     * configured for connection `name`. A missing connection and an unset
     * variable both raise `KeyError` naming the connection.
     */
    function ConnectionString(name: string, environ: map<string, string>): (r: Result<string, Failure>)
      ensures r.Ok? <==> (name in DbConnections() && DbConnections()[name].Str?
        && DbConnections()[name].text in environ)
      ensures r.Ok? ==> r.value == environ[DbConnections()[name].text]
      ensures r.Err? ==> r.error == (if name in DbConnections() && DbConnections()[name].Bool? then TypeError
                                     else KeyError(name))
    {
      var dbs := DbConnections();
      if name !in dbs then Err(KeyError(name))
      else match dbs[name]
        case Bool(_) => Err(TypeError)
        case Str(envVar) => if envVar in environ then Ok(environ[envVar]) else Err(KeyError(name))
    }
  }

  /** The keys of `verb_noun_map` for `verb` and every noun, in order. */
  function Row(verb: string, nouns: seq<string>): (r: seq<string>)
    ensures |r| == |nouns|
    ensures forall j :: 0 <= j < |nouns| ==> r[j] == verb + "_" + nouns[j]
  {
    seq(|nouns|, j requires 0 <= j < |nouns| => verb + "_" + nouns[j])
  }

  /** `[f"{verb}_{noun}" for verb in verbs for noun in nouns]`. */
  function Product(verbs: seq<string>, nouns: seq<string>): (r: seq<string>)
    ensures |r| == |verbs| * |nouns|
  {
    if verbs == [] then []
    else
      var rest := Product(verbs[1..], nouns);
      MulStep(|verbs|, |nouns|);
      Row(verbs[0], nouns) + rest
  }

  /** Element `i * |nouns| + j` of the map is `verbs[i] + "_" + nouns[j]`. */
  lemma {:induction false} ProductAt(verbs: seq<string>, nouns: seq<string>, i: nat, j: nat)
    requires i < |verbs| && j < |nouns|
    ensures i * |nouns| + j < |Product(verbs, nouns)|
    ensures Product(verbs, nouns)[i * |nouns| + j] == verbs[i] + "_" + nouns[j]
  {
    var n := |nouns|;
    var p := Product(verbs, nouns);
    var rest := Product(verbs[1..], nouns);
    assert p == Row(verbs[0], nouns) + rest;
    if i == 0 {
      assert p[j] == Row(verbs[0], nouns)[j];
    } else {
      ProductAt(verbs[1..], nouns, i - 1, j);
      MulStep(i, n);
      assert p[n + ((i - 1) * n + j)] == rest[(i - 1) * n + j];
    }
  }

  lemma MulStep(i: nat, n: nat)
    requires i > 0
    ensures i * n == (i - 1) * n + n
  {
  }

  /** Every configured verb paired with every configured noun is a key of the map. */
  lemma ProductHas(verbs: seq<string>, nouns: seq<string>, verb: string, noun: string)
    requires verb in verbs && noun in nouns
    ensures verb + "_" + noun in Product(verbs, nouns)
  {
    var i :| 0 <= i < |verbs| && verbs[i] == verb;
    var j :| 0 <= j < |nouns| && nouns[j] == noun;
    ProductAt(verbs, nouns, i, j);
  }

  /** The configuration `RamboConfig(app, entrypoint_paths, terminal, **kwargs)` builds. */
  function Configured(app: Table, entrypointPaths: seq<string>, terminal: map<string, seq<string>>,
                      kwargs: map<string, Table>): RamboConfig
  {
    RamboConfig(app, entrypointPaths, terminal, OptionalAttrs(OptionalKwargs, kwargs))
  }

  /** The constructor: visits the optional keyword arguments in a loop, skipping missing ones. */
  method Construct(app: Table, entrypointPaths: seq<string>, terminal: map<string, seq<string>>,
                   kwargs: map<string, Table>) returns (c: RamboConfig)
    ensures c == Configured(app, entrypointPaths, terminal, kwargs)
  {
    var attrs: map<string, Table> := map[];
    var i := 0;
    while i < |OptionalKwargs|
      invariant 0 <= i <= |OptionalKwargs|
      invariant attrs == OptionalAttrs(OptionalKwargs[..i], kwargs)
    {
      assert OptionalKwargs[..i + 1][..i] == OptionalKwargs[..i];
      var kwarg := OptionalKwargs[i];
      if kwarg in kwargs {
        attrs := attrs[Attr(kwarg) := kwargs[kwarg]];
      }
      i := i + 1;
    }
    assert OptionalKwargs[..i] == OptionalKwargs;
    c := RamboConfig(app, entrypointPaths, terminal, attrs);
  }

  /**
   * The optional sections read back what was passed, and default to `{}`;
   * keyword arguments other than the two optional ones are ignored.
   */
  lemma OptionalSections(app: Table, entrypointPaths: seq<string>, terminal: map<string, seq<string>>,
                         kwargs: map<string, Table>)
    ensures Configured(app, entrypointPaths, terminal, kwargs).DbConnections()
      == if "db_connections" in kwargs then kwargs["db_connections"] else map[]
    ensures Configured(app, entrypointPaths, terminal, kwargs).Environment()
      == if "environment" in kwargs then kwargs["environment"] else map[]
  {
    var attrs := OptionalAttrs(OptionalKwargs, kwargs);
    assert "db_connections" in OptionalKwargs && "environment" in OptionalKwargs;
  }

  /** Two keyword-argument maps that agree on the optional keys build the same configuration. */
  lemma ExtraKwargsIgnored(app: Table, entrypointPaths: seq<string>, terminal: map<string, seq<string>>,
                           kwargs: map<string, Table>, other: map<string, Table>)
    requires forall k :: k in OptionalKwargs ==> (k in kwargs <==> k in other)
    requires forall k :: k in OptionalKwargs && k in kwargs ==> kwargs[k] == other[k]
    ensures Configured(app, entrypointPaths, terminal, kwargs) == Configured(app, entrypointPaths, terminal, other)
  {
    var a, b := OptionalAttrs(OptionalKwargs, kwargs), OptionalAttrs(OptionalKwargs, other);
    assert a.Keys == b.Keys;
    forall x | x in a
      ensures a[x] == b[x]
    {
      var k :| k in OptionalKwargs && k in kwargs && x == Attr(k);
    }
  }

  /**
   * The defaults of the optional accessors: with neither optional section and
   * none of the optional `app` keys, nothing fails and every default shows.
   */
  lemma AccessorDefaults(c: RamboConfig)
    requires c.attrs == map[]
    requires "description" !in c.app && "is_pip_package" !in c.app && "config_file" !in c.app
    ensures c.DbConnections() == map[] && c.Environment() == map[]
    ensures !c.LoadEnvFile() && c.EnvFileName() == Str("")
    ensures c.AppDescription() == Str("") && c.AppConfigFile() == Str("")
    ensures c.IsPipPackage() == Bool(false)
    ensures c.AppConfigPath(".") == Err(AppConfigFileNotSet)
  {
  }

  /**
   * The two ways a connection lookup fails by `KeyError` cannot be told apart:
   * a connection that is not configured, and one whose variable is unset.
   */
  lemma UnknownAndUnsetAlike(c: RamboConfig, d: RamboConfig, name: string, envVar: string,
                             environ: map<string, string>)
    requires name !in c.DbConnections()
    requires d.DbConnections() == map[name := Str(envVar)] && envVar !in environ
    ensures c.ConnectionString(name, environ) == d.ConnectionString(name, environ) == Err(KeyError(name))
  {
  }

  /** An accepted `(verb, noun)` always forms one of the keys of `verb_noun_map`. */
  lemma ParsedKeyInMap(c: RamboConfig, argv: seq<string>)
    requires c.ParseNounsAndVerbs(argv).Ok?
    ensures c.ParseNounsAndVerbs(argv).value.0 + "_" + c.ParseNounsAndVerbs(argv).value.1 in c.VerbNounMap().value
  {
    ProductHas(c.Verbs().value, c.Nouns().value, argv[1], argv[2]);
  }
}
