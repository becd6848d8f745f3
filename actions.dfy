/**
 * The handler classes of the command/action engine: `BaseEntryPoint` lists
 * its actions and builds its help text; `SingleActionEntryPoint` runs one
 * `action` method; `MultiActionEntryPoint.execute` routes an action token to
 * the method `action_<token>`.
 */
module Actions {
  import opened Results
  import opened Outcomes
  import opened Text
  import opened Introspection
  import opened Args
  import Naming

  /** `a.replace('action', '').replace('_', '')`: the action token listed for attribute `a`. */
  function ActionToken(attr: string): string
  {
    Without(RemoveAll(attr, "action"), '_')
  }

  /** The tokens listed for the attributes `attrs`, in order: one per attribute starting with `action`. */
  function ActionsOf(attrs: seq<string>): (r: seq<string>)
    ensures |r| <= |attrs|
  {
    if attrs == [] then []
    else
      var prefix := attrs[..|attrs| - 1];
      var last := attrs[|attrs| - 1];
      if StartsWith(last, "action") then ActionsOf(prefix) + [ActionToken(last)] else ActionsOf(prefix)
  }

  /**
   * The listed tokens are exactly the tokens of the attributes starting with
   * `action`, and none of them contains '_'.
   */
  lemma {:induction false} ActionsListed(attrs: seq<string>)
    ensures forall t :: t in ActionsOf(attrs) <==> exists a :: a in attrs && StartsWith(a, "action") && t == ActionToken(a)
    ensures forall i :: 0 <= i < |ActionsOf(attrs)| ==> '_' !in ActionsOf(attrs)[i]
  {
    if attrs != [] {
      var prefix := attrs[..|attrs| - 1];
      var last := attrs[|attrs| - 1];
      assert attrs == prefix + [last];
      ActionsListed(prefix);
      WithoutRemoves(RemoveAll(last, "action"), '_');
    }
  }

  /** Listing distributes over concatenation: attributes are listed in definition order. */
  lemma {:induction false} ActionsOfAppend(a: seq<string>, b: seq<string>)
    ensures ActionsOf(a + b) == ActionsOf(a) + ActionsOf(b)
  {
    if b == [] {
      assert a + b == a;
    } else {
      var b' := b[..|b| - 1];
      assert (a + b)[..|a + b| - 1] == a + b';
      assert (a + b)[|a + b| - 1] == b[|b| - 1];
      ActionsOfAppend(a, b');
    }
  }

  /**
   * The first attribute contributes its own token, ahead of every later one,
   * exactly when its name starts with `action`; nothing is merged or dropped.
   */
  lemma ActionsOfFirst(attr: string, rest: seq<string>)
    ensures ActionsOf([attr] + rest) ==
      (if StartsWith(attr, "action") then [ActionToken(attr)] else []) + ActionsOf(rest)
  {
    ActionsOfAppend([attr], rest);
    assert [attr][..0] == [];
  }

  /** `get_actions()`: taken from the class's own `__dict__` only, not from what it inherits. */
  function GetActions(c: ClassInfo): seq<string>
  {
    ActionsOf(c.ownAttrs)
  }

  /** A plain token round-trips: the method `action_<t>` is listed as `t`. */
  lemma ActionTokenOf(t: string)
    requires '_' !in t && !Contains(t, "action")
    ensures ActionToken("action_" + t) == t
  {
    var s := "action_" + t;
    var u := "_" + t;
    assert s[..6] == "action" && s[6..] == u;
    forall i: nat | i <= |u|
      ensures !OccursAt(u, "action", i)
    {
      if i == 0 && 6 <= |u| {
        assert u[0..6][0] == '_';
      } else if i > 0 && i + 6 <= |u| {
        assert u[i..i + 6] == t[i - 1..i - 1 + 6];
        assert !OccursAt(t, "action", i - 1);
      }
    }
    RemoveAllAbsent(u, "action");
    assert u[1..] == t;
    WithoutAbsent(t, '_');
  }

  /** The method named just `action` is listed as the empty token. */
  lemma BareActionToken()
    ensures ActionToken("action") == ""
  {
    assert "action"[..6] == "action" && "action"[6..] == "";
  }

  /** The first line of `help()`. */
  function HelpHeader(c: ClassInfo): string
  {
    "available actions for command " + Naming.Name(c.name) + "\n"
  }

  /** One `-> <action>` line per action, in order. */
  function ActionLines(actions: seq<string>): string
  {
    if actions == [] then ""
    else ActionLines(actions[..|actions| - 1]) + "-> " + actions[|actions| - 1] + "\n"
  }

  lemma {:induction false} ActionLinesAppend(a: seq<string>, b: seq<string>)
    ensures ActionLines(a + b) == ActionLines(a) + ActionLines(b)
  {
    if b == [] {
      assert a + b == a;
    } else {
      var b' := b[..|b| - 1];
      assert (a + b)[..|a + b| - 1] == a + b';
      ActionLinesAppend(a, b');
    }
  }

  /** The text `help()` returns; the dedented `help_text` block comes last. */
  function HelpText(c: ClassInfo): string
  {
    HelpHeader(c) + ActionLines(GetActions(c)) + c.helpBlock
  }

  /** `help()`: the header, then one line per action appended in a loop, then the help block. */
  method Help(c: ClassInfo) returns (helpMsg: string)
    ensures helpMsg == HelpText(c)
  {
    var actions := GetActions(c);
    helpMsg := HelpHeader(c);
    var i := 0;
    while i < |actions|
      invariant 0 <= i <= |actions|
      invariant helpMsg == HelpHeader(c) + ActionLines(actions[..i])
    {
      assert actions[..i + 1][..i] == actions[..i];
      helpMsg := helpMsg + "-> " + actions[i] + "\n";
      i := i + 1;
    }
    assert actions[..i] == actions;
    helpMsg := helpMsg + c.helpBlock;
  }

  /**
   * The help text starts with the header naming the command, holds the line
   * of action `i` right after the lines of the actions before it, and ends
   * with the help block.
   */
  lemma HelpListsActions(c: ClassInfo, i: nat)
    requires i < |GetActions(c)|
    ensures StartsWith(HelpText(c), HelpHeader(c))
    ensures OccursAt(HelpText(c), "-> " + GetActions(c)[i] + "\n", |HelpHeader(c)| + |ActionLines(GetActions(c)[..i])|)
    ensures HelpText(c)[|HelpText(c)| - |c.helpBlock|..] == c.helpBlock
  {
    var actions := GetActions(c);
    var line := "-> " + actions[i] + "\n";
    assert actions == actions[..i] + [actions[i]] + actions[i + 1..];
    ActionLinesAppend(actions[..i] + [actions[i]], actions[i + 1..]);
    ActionLinesAppend(actions[..i], [actions[i]]);
    assert [actions[i]][..0] == [];
    assert ActionLines([actions[i]]) == line;
    var h := HelpText(c);
    var before := HelpHeader(c) + ActionLines(actions[..i]);
    assert h == before + line + (ActionLines(actions[i + 1..]) + c.helpBlock);
    assert h[|before|..|before| + |line|] == line;
  }

  /** What `execute(token)` does. */
  datatype Executed =
    | Invoked(done: Completion)   // the method `action_<token>` was called once and ended so
    | NotAnAction(message: Message) // the token was reported invalid, then `exit()`

  /**
   * `MultiActionEntryPoint.execute(token)`: looks up `action_<token>` among
   * all attributes, inherited ones included, and calls it; otherwise reports
   * the token with the command's name and its listed actions.
   */
  function Execute(c: ClassInfo, token: string, host: Host): (r: Executed)
    ensures r.Invoked? <==> c.HasAttr("action_" + token)
    ensures r.Invoked? ==> r.done == host.invoke(c.name, "action_" + token)
    ensures r.NotAnAction? ==> r.message == InvalidAction(token, Naming.Name(c.name), GetActions(c))
  {
    var attr := "action_" + token;
    if c.HasAttr(attr) then Invoked(host.invoke(c.name, attr))
    else NotAnAction(InvalidAction(token, Naming.Name(c.name), GetActions(c)))
  }

  /** A plain listed token routes back to the method it was listed for. */
  lemma ListedActionRoutes(c: ClassInfo, t: string, host: Host)
    requires '_' !in t && !Contains(t, "action") && "action_" + t in c.ownAttrs
    ensures t in GetActions(c)
    ensures Execute(c, t, host) == Invoked(host.invoke(c.name, "action_" + t))
  {
    ActionTokenOf(t);
    var a := "action_" + t;
    assert StartsWith(a, "action");
    ActionsListed(c.ownAttrs);
  }

  /**
   * A method `action_<a>_<b>` is listed as `<a><b>`: every '_' of its name is
   * dropped, not only the one after `action`.
   */
  lemma SplitActionToken(a: string, b: string)
    requires '_' !in a && '_' !in b && !Contains("_" + a + "_" + b, "action")
    ensures ActionToken("action_" + a + "_" + b) == a + b
  {
    var u := "_" + a + "_" + b;
    StripActionPrefix(u);
    assert "action" + u == "action_" + a + "_" + b;
    assert u == ("_" + a) + ("_" + b);
    WithoutAppend("_" + a, "_" + b, '_');
    WithoutLeading(a, '_');
    WithoutLeading(b, '_');
  }

  /** `replace('action', '')` on `action` followed by a name without `action` leaves that name. */
  lemma StripActionPrefix(u: string)
    requires !Contains(u, "action")
    ensures RemoveAll("action" + u, "action") == u
  {
    var s := "action" + u;
    assert s[..6] == "action" && s[6..] == u;
    RemoveAllAbsent(u, "action");
  }

  /**
   * Tokens are listed with every '_' removed, so a method whose name has a
   * further '_' (such as `action_build_all`, listed as `buildall`) is listed
   * under a token that `execute` does not route to it.
   */
  lemma ListedTokenMayNotRoute(c: ClassInfo, a: string, b: string, host: Host)
    requires '_' !in a && '_' !in b && !Contains("_" + a + "_" + b, "action")
    requires "action_" + a + "_" + b in c.ownAttrs && !c.HasAttr("action_" + a + b)
    ensures a + b in GetActions(c)
    ensures Execute(c, a + b, host) == NotAnAction(InvalidAction(a + b, Naming.Name(c.name), GetActions(c)))
  {
    var attr := "action_" + a + "_" + b;
    SplitActionToken(a, b);
    assert attr[..6] == "action";
    ActionsListed(c.ownAttrs);
    assert "action_" + (a + b) == "action_" + a + b;
  }

  /**
   * The base `SingleActionEntryPoint.action` raises `NotImplementedError`;
   * a class that defines `action` (or inherits it from its own ancestors)
   * runs that instead.
   */
  function SingleAction(c: ClassInfo, host: Host): (done: Completion)
    ensures !c.HasAttr("action") ==> done == RaisedNotImplemented
    ensures c.HasAttr("action") ==> done == host.invoke(c.name, "action")
  {
    if c.HasAttr("action") then host.invoke(c.name, "action") else RaisedNotImplemented
  }

  /**
   * Constructing a single- or multi-action handler: `parse_cmd_args` checks
   * the handler's own arguments against `argv[argIndex:]` (2 for single, 3 for
   * multi), then a user-defined `__init__`, if any, runs. The result is the
   * window the handler parsed.
   */
  function Construct(c: ClassInfo, argv: seq<string>, argIndex: nat, host: Host): (r: Result<seq<string>, Failure>)
    ensures r.Ok? ==> r.value == (if argIndex <= |argv| then argv[argIndex..] else [])
    ensures r == Err(UsageError) <==> !host.accepts(c.name, ArgWindow(argv, argIndex, None))
    ensures host.accepts(c.name, ArgWindow(argv, argIndex, None)) ==>
      (r.Ok? <==> !c.HasAttr("__init__") || host.invoke(c.name, "__init__") == Returned)
      && (c.HasAttr("__init__") && host.invoke(c.name, "__init__") == RaisedNotImplemented
          ==> r == Err(NotImplementedError))
      && (c.HasAttr("__init__") && host.invoke(c.name, "__init__") == RaisedOther ==> r == Err(HandlerError))
  {
    var window := ArgWindow(argv, argIndex, None);
    OpenWindow(argv, argIndex);
    if !host.accepts(c.name, window) then Err(UsageError)
    else if !c.HasAttr("__init__") then Ok(window)
    else match host.invoke(c.name, "__init__")
      case Returned => Ok(window)
      case RaisedNotImplemented => Err(NotImplementedError)
      case RaisedOther => Err(HandlerError)
  }
}
