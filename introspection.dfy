/**
 * What the two discovery engines learn from `pkgutil`, `importlib` and
 * `inspect`, given here as explicit inputs: which submodules a directory
 * lists, which dotted module names import, and for each module the members
 * `inspect.getmembers` reports, with the class facts the engines test.
 * Also the handler registry both engines build with a dict comprehension.
 */
module Introspection {
  import opened Results
  import opened Outcomes
  import opened OrderedDict
  import Naming

  /** The framework base class a class is, or derives from. */
  datatype Lineage =
    | Unrelated  // none of the framework's handler bases
    | Legacy     // `EntryPoint` of the verb/noun engine
    | Base       // `BaseEntryPoint` but neither variant below
    | Single     // `SingleActionEntryPoint`
    | Multi      // `MultiActionEntryPoint`

  /**
   * A class object. `frameworkBase` is true for the framework's own base
   * classes themselves; `ownAttrs` lists `cls.__dict__` in definition order;
   * `inheritedAttrs` lists what it inherits from user-defined ancestors;
   * `helpBlock` is the dedented `help_text` block that ends `help()`.
   */
  datatype ClassInfo = ClassInfo(
    name: string,
    lineage: Lineage,
    frameworkBase: bool,
    ownAttrs: seq<string>,
    inheritedAttrs: seq<string>,
    description: string,
    helpBlock: string)
  {
    /** `hasattr(cls, attr)` for the attributes the engines look up. */
    predicate HasAttr(attr: string)
    {
      attr in ownAttrs || attr in inheritedAttrs
    }
  }

  /** One member of a module as `inspect.getmembers` yields it. */
  datatype Member = ClassMember(cls: ClassInfo) | OtherMember

  /** An imported module: its members in `inspect.getmembers` order. */
  datatype Module = Module(members: seq<Member>)

  /**
   * The file system and import system as far as discovery sees them:
   * `listing[dir]` is what `pkgutil.iter_modules([dir])` yields, in its order
   * (an unknown directory yields nothing), `importable[name]` is the module
   * `import_module(name)` returns.
   */
  datatype Packages = Packages(listing: map<string, seq<string>>, importable: map<string, Module>)

  function Listing(p: Packages, dir: string): seq<string>
  {
    if dir in p.listing then p.listing[dir] else []
  }

  /** Importing `names` in order; the first name that does not import raises. */
  function ImportAll(names: seq<string>, p: Packages): Result<seq<Module>, Failure>
  {
    if names == [] then Ok([])
    else
      var prefix := names[..|names| - 1];
      var last := names[|names| - 1];
      match ImportAll(prefix, p)
      case Err(f) => Err(f)
      case Ok(ms) => if last in p.importable then Ok(ms + [p.importable[last]]) else Err(ModuleNotFound(last))
  }

  /**
   * Importing succeeds iff every name imports, and then yields the modules in
   * order; otherwise the error names the first name that does not import.
   */
  lemma {:induction false} ImportAllResult(names: seq<string>, p: Packages)
    ensures ImportAll(names, p).Ok? <==> forall i :: 0 <= i < |names| ==> names[i] in p.importable
    ensures ImportAll(names, p).Ok? ==> (|ImportAll(names, p).value| == |names| &&
      forall i :: 0 <= i < |names| ==> ImportAll(names, p).value[i] == p.importable[names[i]])
    ensures ImportAll(names, p).Err? ==>
      exists i :: (0 <= i < |names| && names[i] !in p.importable
                   && ImportAll(names, p).error == ModuleNotFound(names[i])
                   && forall j :: 0 <= j < i ==> names[j] in p.importable)
  {
    if names != [] {
      var prefix := names[..|names| - 1];
      ImportAllResult(prefix, p);
      if ImportAll(prefix, p).Err? {
        var i :| 0 <= i < |prefix| && prefix[i] !in p.importable
          && ImportAll(prefix, p).error == ModuleNotFound(prefix[i])
          && forall j :: 0 <= j < i ==> prefix[j] in p.importable;
        assert names[i] == prefix[i];
      }
    }
  }

  /** Importing one more module that exists extends the imported sequence by that module. */
  lemma ImportExtends(names: seq<string>, name: string, p: Packages)
    requires ImportAll(names, p).Ok? && name in p.importable
    ensures ImportAll(names + [name], p) == Ok(ImportAll(names, p).value + [p.importable[name]])
  {
    assert (names + [name])[..|names|] == names;
  }

  /** Importing a module that does not exist after a successful prefix fails with that module's name. */
  lemma ImportFails(names: seq<string>, name: string, p: Packages)
    requires ImportAll(names, p).Ok? && name !in p.importable
    ensures ImportAll(names + [name], p) == Err(ModuleNotFound(name))
  {
    assert (names + [name])[..|names|] == names;
  }

  /** Once an import has failed, nothing after it is imported and its error is the result. */
  lemma {:induction false} ImportErrPersists(names: seq<string>, rest: seq<string>, p: Packages)
    requires ImportAll(names, p).Err?
    ensures ImportAll(names + rest, p) == ImportAll(names, p)
  {
    if rest == [] {
      assert names + rest == names;
    } else {
      var all := names + rest;
      assert all[..|all| - 1] == names + rest[..|rest| - 1];
      ImportErrPersists(names, rest[..|rest| - 1], p);
    }
  }

  /** One more step of an import loop over `names`: name `k` imports. */
  lemma ImportNext(names: seq<string>, k: nat, p: Packages)
    requires k < |names| && ImportAll(names[..k], p).Ok? && names[k] in p.importable
    ensures ImportAll(names[..k + 1], p) == Ok(ImportAll(names[..k], p).value + [p.importable[names[k]]])
  {
    assert names[..k + 1] == names[..k] + [names[k]];
    ImportExtends(names[..k], names[k], p);
  }

  /** An import loop over `names` that stops at name `k` has the result of importing all of `names`. */
  lemma ImportStopsAt(names: seq<string>, k: nat, p: Packages)
    requires k < |names| && ImportAll(names[..k], p).Ok? && names[k] !in p.importable
    ensures ImportAll(names, p) == Err(ModuleNotFound(names[k]))
  {
    assert names[..k + 1] == names[..k] + [names[k]];
    ImportFails(names[..k], names[k], p);
    assert names == names[..k + 1] + names[k + 1..];
    ImportErrPersists(names[..k + 1], names[k + 1..], p);
  }

  /** The classes among `members` that satisfy `keep`, in order. */
  function MemberCandidates(members: seq<Member>, keep: ClassInfo -> bool): (cs: seq<ClassInfo>)
    ensures forall c :: c in cs <==> keep(c) && ClassMember(c) in members
  {
    if members == [] then []
    else
      var prefix := members[..|members| - 1];
      var last := members[|members| - 1];
      assert members == prefix + [last];
      MemberCandidates(prefix, keep) + (if last.ClassMember? && keep(last.cls) then [last.cls] else [])
  }

  /**
   * The inner loop both engines run over `inspect.getmembers(module)`: the
   * classes that pass `keep`, appended in order.
   */
  method SelectClasses(members: seq<Member>, keep: ClassInfo -> bool) returns (selected: seq<ClassInfo>)
    ensures selected == MemberCandidates(members, keep)
  {
    selected := [];
    var j := 0;
    while j < |members|
      invariant 0 <= j <= |members|
      invariant selected == MemberCandidates(members[..j], keep)
    {
      assert members[..j + 1][..j] == members[..j];
      var m := members[j];
      if m.ClassMember? && keep(m.cls) {
        selected := selected + [m.cls];
      }
      j := j + 1;
    }
    assert members[..j] == members;
  }

  /** The classes of all `modules` that satisfy `keep`, module by module, in order. */
  function Candidates(modules: seq<Module>, keep: ClassInfo -> bool): (cs: seq<ClassInfo>)
    ensures forall c :: c in cs <==>
      keep(c) && exists i :: 0 <= i < |modules| && ClassMember(c) in modules[i].members
  {
    if modules == [] then []
    else
      var prefix := modules[..|modules| - 1];
      var last := modules[|modules| - 1];
      Candidates(prefix, keep) + MemberCandidates(last.members, keep)
  }

  /** The (key, class) pairs the registry comprehension iterates over. */
  function Keyed(cs: seq<ClassInfo>): seq<(string, ClassInfo)>
  {
    seq(|cs|, i requires 0 <= i < |cs| => (Naming.Name(cs[i].name), cs[i]))
  }

  /** `{cls.name(): cls for cls in cs}`. */
  function Registry(cs: seq<ClassInfo>): Dict<ClassInfo>
  {
    FromPairs(Keyed(cs))
  }

  /** The registry's keys are exactly the keys of the collected classes. */
  lemma RegistryKeys(cs: seq<ClassInfo>, k: string)
    ensures k in Keys(Registry(cs)) <==> exists i :: 0 <= i < |cs| && Naming.Name(cs[i].name) == k
  {
    var ks := PairKeys(Keyed(cs));
    assert |ks| == |cs|;
    assert forall i :: 0 <= i < |cs| ==> ks[i] == Naming.Name(cs[i].name);
    if k in ks {
      var i :| 0 <= i < |ks| && ks[i] == k;
      assert Naming.Name(cs[i].name) == k;
    }
  }

  /**
   * Of the classes sharing a key, the one collected last is registered, and no
   * error is raised.
   */
  lemma RegistryLastWins(cs: seq<ClassInfo>, i: nat)
    requires i < |cs|
    requires forall j :: i < j < |cs| ==> Naming.Name(cs[j].name) != Naming.Name(cs[i].name)
    ensures Get(Registry(cs), Naming.Name(cs[i].name)) == Some(cs[i])
  {
    var ps := Keyed(cs);
    assert forall j :: 0 <= j < |cs| ==> ps[j] == (Naming.Name(cs[j].name), cs[j]);
    FromPairsLastWins(ps, i);
  }

  /** Every registered class was collected, and it is registered under its own key. */
  lemma {:induction false} RegistryEntries(cs: seq<ClassInfo>, k: string)
    requires Get(Registry(cs), k).Some?
    ensures Get(Registry(cs), k).value in cs
    ensures Naming.Name(Get(Registry(cs), k).value.name) == k
  {
    var prefix := cs[..|cs| - 1];
    var last := cs[|cs| - 1];
    assert Keyed(cs)[..|cs| - 1] == Keyed(prefix);
    assert Registry(cs) == Put(Registry(prefix), Naming.Name(last.name), last);
    if Naming.Name(last.name) != k {
      RegistryEntries(prefix, k);
    }
  }
}
