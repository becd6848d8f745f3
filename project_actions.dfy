/**
 * `NewProject`, the handler behind `rambo new project <name>`: it validates
 * the project name against a fixed set of punctuation, derives the paths of
 * the scaffold from the working directory and the name, and `run()` creates
 * the scaffold, optionally installs it with pip, and reports completion.
 */
module ProjectActions {
  import opened Results
  import opened Outcomes
  import opened Text

  /** The characters `validate_project_name` refuses. */
  const Disallowed: string := "!\"#$%&'()*+,./:;<=>?@[\\]^`{|}~"

  /** No character of the name is in the disallowed set. */
  predicate Allowed(projectName: string)
  {
    forall i :: 0 <= i < |projectName| ==> projectName[i] !in Disallowed
  }

  /**
   * `validate_project_name`: scans the name character by character and raises
   * `ValueError` at the first disallowed one.
   */
  method ValidateProjectName(projectName: string) returns (r: Result<(), Failure>)
    ensures r.Ok? <==> Allowed(projectName)
    ensures r.Err? ==> r.error == ValueError
  {
    for i := 0 to |projectName|
      invariant forall j :: 0 <= j < i ==> projectName[j] !in Disallowed
    {
      if projectName[i] in Disallowed {
        return Err(ValueError);
      }
    }
    return Ok(());
  }

  /** ASCII punctuation. */
  predicate IsPunctuation(c: char)
  {
    '!' <= c <= '/' || ':' <= c <= '@' || '[' <= c <= '`' || '{' <= c <= '~'
  }

  /** Every disallowed character is ASCII punctuation, and '-' and '_' are not disallowed. */
  lemma DisallowedArePunctuation(c: char)
    requires c in Disallowed
    ensures IsPunctuation(c) && c != '-' && c != '_'
  {
  }

  /** Letters, digits, '-', '_' and the space. */
  predicate IsPlain(c: char)
  {
    'a' <= c <= 'z' || 'A' <= c <= 'Z' || '0' <= c <= '9' || c == '-' || c == '_' || c == ' '
  }

  /** A name made only of plain characters is accepted; so is the empty name. */
  lemma PlainNamesAccepted(projectName: string)
    requires forall i :: 0 <= i < |projectName| ==> IsPlain(projectName[i])
    ensures Allowed(projectName)
  {
    forall i | 0 <= i < |projectName|
      ensures projectName[i] !in Disallowed
    {
      if projectName[i] in Disallowed {
        DisallowedArePunctuation(projectName[i]);
      }
    }
  }

  /** How a template file becomes text: `read_text().format(name=project_name)`. */
  datatype Rendered = Rendered(template: string, projectName: string)

  /** One step of `run()` on the file system, pip or the terminal. */
  datatype Effect =
    | MakeDirs(path: string)              // `mkdir(parents=True, exist_ok=True)`
    | Touch(path: string)                 // `touch(exist_ok=True)`
    | ReadTemplate(path: string)
    | WriteText(path: string, text: Rendered)
    | PipInstall(argv: seq<string>)       // `subprocess.run(['pip', 'install', '-e', '.'])`
    | Say(message: string)                // `print`

  /** The local install command `install_local` runs. */
  const PipCommand: seq<string> := ["pip", "install", "-e", "."]

  /** The message printed at the end of `run()`. */
  function CompletionMessage(projectName: string, install: bool): string
  {
    if install then "rambo project setup complete. try running " + projectName + " on your terminal!"
    else "rambo project setup complete!"
  }

  class NewProject {
    /** `cmd_args.project_name` and `cmd_args.install`. */
    var projectName: string
    var install: bool
    /** The installed package's directory and the working directory. */
    var root: string
    var cwd: string
    var templatePath: string
    var ramboTemplatePath: string
    var mainTemplatePath: string
    var setupTemplatePath: string
    var projectPath: string
    var ramboPath: string
    var entryPath: string
    var projectInit: string
    var projectMain: string
    var entryPathInit: string

    /** The field assignments of `__init__` that follow validation. */
    constructor (projectName: string, install: bool, root: string, cwd: string)
      ensures this.projectName == projectName && this.install == install
      ensures this.root == root && this.cwd == cwd
      ensures templatePath == Join(root, "templates")
      ensures ramboTemplatePath == Join(templatePath, "rambo_template.yml")
      ensures mainTemplatePath == Join(templatePath, "main_template.txt")
      ensures setupTemplatePath == Join(templatePath, "setup_template.txt")
      ensures projectPath == Join(cwd, projectName)
      ensures ramboPath == Join(projectPath, projectName + ".yml")
      ensures entryPath == Join(projectPath, "entrypoints")
      ensures projectInit == Join(projectPath, "__init__.py")
      ensures projectMain == Join(projectPath, "__main__.py")
      ensures entryPathInit == Join(entryPath, "__init__.py")
    {
      var templates := Join(root, "templates");
      var project := Join(cwd, projectName);
      var entry := Join(project, "entrypoints");
      this.projectName := projectName;
      this.install := install;
      this.root := root;
      this.cwd := cwd;
      templatePath := templates;
      ramboTemplatePath := Join(templates, "rambo_template.yml");
      mainTemplatePath := Join(templates, "main_template.txt");
      setupTemplatePath := Join(templates, "setup_template.txt");
      projectPath := project;
      ramboPath := Join(project, projectName + ".yml");
      entryPath := entry;
      projectInit := Join(project, "__init__.py");
      projectMain := Join(project, "__main__.py");
      entryPathInit := Join(entry, "__init__.py");
    }

    /**
     * `NewProject.__init__` after the base initialisation: the name is
     * validated first, so a refused name raises before any path is derived.
     */
    static method New(projectName: string, install: bool, root: string, cwd: string)
      returns (r: Result<NewProject, Failure>)
      ensures r.Err? <==> !Allowed(projectName)
      ensures r.Err? ==> r.error == ValueError
      ensures r.Ok? ==> (fresh(r.value) && r.value.projectName == projectName && r.value.install == install
        && r.value.projectPath == Join(cwd, projectName)
        && r.value.ramboPath == Join(Join(cwd, projectName), projectName + ".yml")
        && r.value.entryPath == Join(Join(cwd, projectName), "entrypoints"))
    {
      var valid := ValidateProjectName(projectName);
      if valid.Err? {
        return Err(valid.error);
      }
      var project := new NewProject(projectName, install, root, cwd);
      return Ok(project);
    }

    /**
     * What `run()` does, in order: the two directories, the two package
     * markers, the two templates read, the rambo file and the main module
     * written, `pip install -e .` when `--install` is set, and the message.
     */
    function Run(): (effects: seq<Effect>)
      reads this
      ensures PipInstall(PipCommand) in effects <==> install
      ensures forall e :: e in effects && e.PipInstall? ==> e == PipInstall(PipCommand)
      ensures |effects| > 0 && effects[|effects| - 1] == Say(CompletionMessage(projectName, install))
      ensures forall e :: e in effects && e.WriteText? ==>
        (e.path == ramboPath && e.text == Rendered(ramboTemplatePath, projectName))
        || (e.path == projectMain && e.text == Rendered(mainTemplatePath, projectName))
    {
      var scaffold := [
        MakeDirs(projectPath), MakeDirs(entryPath),
        Touch(projectInit), Touch(entryPathInit),
        ReadTemplate(ramboTemplatePath), ReadTemplate(mainTemplatePath),
        Touch(ramboPath), WriteText(ramboPath, Rendered(ramboTemplatePath, projectName)),
        Touch(projectMain), WriteText(projectMain, Rendered(mainTemplatePath, projectName))];
      scaffold + (if install then [PipInstall(PipCommand)] else []) + [Say(CompletionMessage(projectName, install))]
    }
  }

  /** A non-empty part that does not start with '/' is appended below the base. */
  lemma JoinRelative(base: string, part: string)
    requires part != [] && part[0] != '/'
    ensures Join(base, part) == base + "/" + part
  {
  }

  /**
   * For an accepted, non-empty name the scaffold lies in a new directory
   * named after the project inside the working directory: the name holds no
   * '/', so it never replaces the working directory as an absolute path would.
   */
  lemma AcceptedNamePaths(cwd: string, projectName: string)
    requires Allowed(projectName) && projectName != []
    ensures Join(cwd, projectName) == cwd + "/" + projectName
    ensures Join(Join(cwd, projectName), projectName + ".yml") == cwd + "/" + projectName + "/" + projectName + ".yml"
    ensures Join(Join(cwd, projectName), "entrypoints") == cwd + "/" + projectName + "/entrypoints"
    ensures Join(Join(Join(cwd, projectName), "entrypoints"), "__init__.py")
      == cwd + "/" + projectName + "/entrypoints/__init__.py"
  {
    assert Disallowed[13] == '/';
    assert projectName[0] != '/';
    var project := cwd + "/" + projectName;
    JoinRelative(cwd, projectName);
    JoinRelative(project, projectName + ".yml");
    JoinRelative(project, "entrypoints");
    JoinRelative(project + "/entrypoints", "__init__.py");
  }

  /**
   * The empty name is accepted, and then the project directory is the working
   * directory itself and the rambo file is `.yml` inside it.
   */
  lemma EmptyNameScaffoldsInPlace(cwd: string)
    ensures Allowed("")
    ensures Join(cwd, "") == cwd
    ensures Join(Join(cwd, ""), "" + ".yml") == cwd + "/.yml"
  {
  }

  /** The completion message names the project exactly when it was installed. */
  lemma CompletionNamesProject(projectName: string, install: bool)
    ensures install ==> OccursAt(CompletionMessage(projectName, install), projectName, 42)
    ensures !install ==> CompletionMessage(projectName, install) == "rambo project setup complete!"
    ensures StartsWith(CompletionMessage(projectName, install), "rambo project setup complete")
  {
    var head := "rambo project setup complete";
    if install {
      var m := CompletionMessage(projectName, install);
      assert |"rambo project setup complete. try running "| == 42;
      assert m == "rambo project setup complete. try running " + projectName + " on your terminal!";
      assert m[42..42 + |projectName|] == projectName;
      assert m[..|head|] == head;
    } else {
      assert "rambo project setup complete!"[..|head|] == head;
    }
  }
}
