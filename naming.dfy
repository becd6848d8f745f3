/**
 * A handler's dispatch key is derived from its class name: every upper-case
 * letter becomes '_' followed by its lower-case form, then leading '_' are
 * stripped (`NewProject` -> `new_project`). The same transform is written out
 * three times in the program (`EntryPoint.name` in two files and
 * `BaseEntryPoint.name`); it is modelled once here.
 */
module Naming {
  import opened Text

  /** The replacement for one character of the class name. */
  function SnakeChar(c: char): string
  {
    if IsUpper(c) then ['_', Lower(c)] else [c]
  }

  /** `''.join(f'_{c.lower()}' if c.isupper() else c for c in s)`. */
  function Snake(s: string): (r: string)
    ensures |r| == |s| + CountUpper(s)
  {
    if s == [] then [] else SnakeChar(s[0]) + Snake(s[1..])
  }

  /** The snake form has no upper-case letter left. */
  lemma {:induction false} SnakeNoUpper(s: string)
    ensures forall i :: 0 <= i < |Snake(s)| ==> !IsUpper(Snake(s)[i])
  {
    if s != [] {
      SnakeNoUpper(s[1..]);
      var r := Snake(s);
      assert r == SnakeChar(s[0]) + Snake(s[1..]);
    }
  }

  /** `s.lstrip(c)`: the longest suffix of `s` that does not start with `c`. */
  function LStrip(s: string, c: char): (r: string)
    ensures |r| <= |s|
    ensures r == [] || r[0] != c
  {
    if s != [] && s[0] == c then LStrip(s[1..], c) else s
  }

  /** `lstrip` keeps a suffix of `s`, and what it removes is a run of `c`. */
  lemma {:induction false} LStripDrops(s: string, c: char)
    ensures LStrip(s, c) == s[|s| - |LStrip(s, c)|..]
    ensures forall i :: 0 <= i < |s| - |LStrip(s, c)| ==> s[i] == c
  {
    if s != [] && s[0] == c {
      LStripDrops(s[1..], c);
      assert forall i :: 1 <= i < |s| ==> s[i] == s[1..][i - 1];
      assert s[1..][|s| - 1 - |LStrip(s, c)|..] == s[|s| - |LStrip(s, c)|..];
    }
  }

  /** The dispatch key of a class: `name()`. */
  function Name(className: string): string
  {
    LStrip(Snake(className), '_')
  }

  /** A key never starts with '_' and holds no upper-case letter. */
  lemma NameShape(className: string)
    ensures Name(className) == [] || Name(className)[0] != '_'
    ensures forall i :: 0 <= i < |Name(className)| ==> !IsUpper(Name(className)[i])
  {
    var snake := Snake(className);
    var key := Name(className);
    SnakeNoUpper(className);
    LStripDrops(snake, '_');
    assert forall i :: 0 <= i < |key| ==> key[i] == snake[|snake| - |key| + i];
  }

  /**
   * The inverse of `Snake` on names without '_': '_' followed by a lower-case
   * letter is read back as that letter in upper case.
   */
  function Unsnake(t: string): string
    decreases |t|
  {
    if t == [] then []
    else if t[0] == '_' && |t| >= 2 && IsLower(t[1]) then [Upper(t[1])] + Unsnake(t[2..])
    else [t[0]] + Unsnake(t[1..])
  }

  lemma {:induction false} SnakeAppend(a: string, b: string)
    ensures Snake(a + b) == Snake(a) + Snake(b)
  {
    if a == [] {
      assert a + b == b;
    } else {
      assert (a + b)[0] == a[0] && (a + b)[1..] == a[1..] + b;
      SnakeAppend(a[1..], b);
    }
  }

  /** Without upper-case letters the transform changes nothing. */
  lemma {:induction false} SnakeOfLower(s: string)
    requires forall i :: 0 <= i < |s| ==> !IsUpper(s[i])
    ensures Snake(s) == s
  {
    if s != [] {
      SnakeOfLower(s[1..]);
    }
  }

  /** No information is lost: a class name without '_' is recovered from its snake form. */
  lemma {:induction false} SnakeRoundTrip(s: string)
    requires '_' !in s
    ensures Unsnake(Snake(s)) == s
  {
    if s != [] {
      var t := Snake(s);
      assert t == SnakeChar(s[0]) + Snake(s[1..]);
      SnakeRoundTrip(s[1..]);
      if IsUpper(s[0]) {
        assert t[0] == '_' && t[1] == Lower(s[0]) && t[2..] == Snake(s[1..]);
        assert Upper(Lower(s[0])) == s[0];
      } else {
        assert t[0] == s[0] && t[1..] == Snake(s[1..]);
      }
    }
  }

  /** Each upper-case letter of a name without '_' contributes exactly one '_'. */
  lemma {:induction false} SnakeUnderscores(s: string)
    requires '_' !in s
    ensures Count(Snake(s), '_') == CountUpper(s)
  {
    if s != [] {
      SnakeUnderscores(s[1..]);
      CountAppend(SnakeChar(s[0]), Snake(s[1..]), '_');
    }
  }

  /**
   * For a class name without '_', the key has one '_' per upper-case letter
   * except a leading one (which `lstrip` removes).
   */
  lemma {:induction false} NameUnderscores(c: string)
    requires '_' !in c && c != []
    ensures Count(Name(c), '_') == CountUpper(c[1..])
  {
    var snake := Snake(c);
    assert snake == SnakeChar(c[0]) + Snake(c[1..]);
    SnakeUnderscores(c[1..]);
    if IsUpper(c[0]) {
      assert snake[0] == '_' && snake[1] == Lower(c[0]) && snake[1..] == [Lower(c[0])] + Snake(c[1..]);
      assert LStrip(snake, '_') == LStrip(snake[1..], '_') == snake[1..];
      CountAppend([Lower(c[0])], Snake(c[1..]), '_');
    } else {
      assert snake[0] == c[0] != '_';
      CountAppend([c[0]], Snake(c[1..]), '_');
    }
  }

  /** `word` with its first letter made upper-case. */
  function Capitalized(word: string): string
    requires word != [] && IsLower(word[0])
  {
    [Upper(word[0])] + word[1..]
  }

  /** A word made of characters that are neither upper-case nor '_'. */
  ghost predicate PlainWord(w: string)
  {
    w != [] && IsLower(w[0]) && forall i :: 0 <= i < |w| ==> !IsUpper(w[i]) && w[i] != '_'
  }

  /** Snake form of a capitalised plain word: '_' then the word itself. */
  lemma {:induction false} SnakeOfCapitalized(word: string)
    requires PlainWord(word)
    ensures Snake(Capitalized(word)) == "_" + word
  {
    var rest := word[1..];
    assert Snake(rest) == rest by {
      SnakeOfLower(rest);
    }
  }

  /** `VerbNoun` written in camel case yields the key `verb_noun`. */
  lemma {:induction false} NameOfTwoWords(verb: string, noun: string)
    requires PlainWord(verb) && PlainWord(noun)
    ensures Name(Capitalized(verb) + Capitalized(noun)) == verb + "_" + noun
  {
    var cv, cn := Capitalized(verb), Capitalized(noun);
    SnakeAppend(cv, cn);
    SnakeOfCapitalized(verb);
    SnakeOfCapitalized(noun);
    var key := verb + "_" + noun;
    var snake := Snake(cv + cn);
    assert snake == "_" + key;
    assert snake[1..] == key && key[0] == verb[0] != '_';
    assert LStrip(snake, '_') == LStrip(key, '_') == key;
  }

  /** `NewProject`, the class of the project scaffolding command, has the key `new_project`. */
  lemma {:induction false} NewProjectKey()
    ensures Name("NewProject") == "new_project"
  {
    assert PlainWord("new") && PlainWord("project");
    assert Capitalized("new") == "New" && Capitalized("project") == "Project";
    NameOfTwoWords("new", "project");
    assert "New" + "Project" == "NewProject";
    assert "new" + "_" + "project" == "new_project";
  }

  /**
   * `_validate_class_name`: counts the '_' of the key in a loop and reports
   * whether the class may be instantiated (false means it raises).
   */
  method ValidateClassName(className: string) returns (valid: bool)
    ensures valid <==> Count(Name(className), '_') <= 1
  {
    var key := Name(className);
    var underscores := 0;
    var i := 0;
    while i < |key|
      invariant 0 <= i <= |key|
      invariant underscores + Count(key[i..], '_') == Count(key, '_')
    {
      assert key[i..][1..] == key[i + 1..];
      if key[i] == '_' {
        underscores := underscores + 1;
      }
      i := i + 1;
    }
    assert key[|key|..] == [];
    valid := !(underscores > 1);
  }

  /**
   * For class names without '_': validation passes exactly when at most one
   * upper-case letter follows the first character, so single-word names
   * (`Project`, `project`) pass as well as two-word ones.
   */
  lemma {:induction false} TwoWordRule(className: string)
    requires '_' !in className && className != []
    ensures Count(Name(className), '_') <= 1 <==> CountUpper(className[1..]) <= 1
  {
    NameUnderscores(className);
  }

  /** `is_entry_point()` of the first engine: false only for the class named `EntryPoint`. */
  predicate IsEntryPoint(className: string)
  {
    className != "EntryPoint"
  }
}
