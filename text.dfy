/**
 * The string operations of Python that the modelled code uses, restricted to
 * ASCII: `isupper`/`lower` on single characters, `str.count`-style counting,
 * `str.replace` with a literal pattern, `str.startswith`, and `pathlib`'s `/`.
 */
module Text {

  predicate IsUpper(c: char) { 'A' <= c <= 'Z' }

  predicate IsLower(c: char) { 'a' <= c <= 'z' }

  function Lower(c: char): (r: char)
    requires IsUpper(c)
    ensures IsLower(r)
  {
    (c as int + 32) as char
  }

  function Upper(c: char): (r: char)
    requires IsLower(c)
    ensures IsUpper(r) && Lower(r) == c
  {
    (c as int - 32) as char
  }

  /** Number of occurrences of `c` in `s`. */
  function Count(s: string, c: char): nat
  {
    if s == [] then 0 else (if s[0] == c then 1 else 0) + Count(s[1..], c)
  }

  /** Number of upper-case letters in `s`. */
  function CountUpper(s: string): nat
  {
    if s == [] then 0 else (if IsUpper(s[0]) then 1 else 0) + CountUpper(s[1..])
  }

  lemma {:induction false} CountAppend(a: string, b: string, c: char)
    ensures Count(a + b, c) == Count(a, c) + Count(b, c)
  {
    if a == [] {
      assert a + b == b;
    } else {
      assert (a + b)[1..] == a[1..] + b;
      CountAppend(a[1..], b, c);
    }
  }

  lemma {:induction false} CountAbsent(s: string, c: char)
    requires c !in s
    ensures Count(s, c) == 0
  {
    if s != [] {
      CountAbsent(s[1..], c);
    }
  }

  predicate StartsWith(s: string, prefix: string)
  {
    |prefix| <= |s| && s[..|prefix|] == prefix
  }

  predicate OccursAt(s: string, pattern: string, i: nat)
  {
    i + |pattern| <= |s| && s[i..i + |pattern|] == pattern
  }

  /** `pattern in s` for strings: `pattern` is a substring of `s`. */
  predicate Contains(s: string, pattern: string)
  {
    exists i: nat | i <= |s| :: OccursAt(s, pattern, i)
  }

  /**
   * `s.replace(pattern, '')`: scanning from the left, every non-overlapping
   * occurrence of `pattern` is deleted, in one pass.
   */
  function RemoveAll(s: string, pattern: string): (r: string)
    requires pattern != []
    ensures |r| <= |s|
    decreases |s|
  {
    if |s| < |pattern| then s
    else if s[..|pattern|] == pattern then RemoveAll(s[|pattern|..], pattern)
    else [s[0]] + RemoveAll(s[1..], pattern)
  }

  /** A string that does not contain the pattern is left as it is. */
  lemma {:induction false} RemoveAllAbsent(s: string, pattern: string)
    requires pattern != [] && !Contains(s, pattern)
    ensures RemoveAll(s, pattern) == s
    decreases |s|
  {
    if |s| >= |pattern| {
      assert !OccursAt(s, pattern, 0);
      assert s[0..|pattern|] == s[..|pattern|];
      forall i: nat | i <= |s[1..]| && OccursAt(s[1..], pattern, i)
        ensures OccursAt(s, pattern, i + 1)
      {
        assert s[1..][i..i + |pattern|] == s[i + 1..i + 1 + |pattern|];
      }
      RemoveAllAbsent(s[1..], pattern);
      assert s == [s[0]] + s[1..];
    }
  }

  /** `s.replace(c, '')` for a one-character `c`: the characters of `s` other than `c`, in order. */
  function Without(s: string, c: char): string
  {
    if s == [] then [] else (if s[0] == c then [] else [s[0]]) + Without(s[1..], c)
  }

  /** Every `c` is removed and nothing else: the length drops by the number of `c`. */
  lemma {:induction false} WithoutRemoves(s: string, c: char)
    ensures c !in Without(s, c)
    ensures |Without(s, c)| == |s| - Count(s, c)
  {
    if s != [] {
      WithoutRemoves(s[1..], c);
    }
  }

  lemma {:induction false} WithoutAbsent(s: string, c: char)
    requires c !in s
    ensures Without(s, c) == s
  {
    if s != [] {
      WithoutAbsent(s[1..], c);
    }
  }

  /** Removing `c` from `c` followed by a string without `c` leaves that string. */
  lemma WithoutLeading(s: string, c: char)
    requires c !in s
    ensures Without([c] + s, c) == s
  {
    assert ([c] + s)[1..] == s;
    WithoutAbsent(s, c);
  }

  lemma {:induction false} WithoutAppend(a: string, b: string, c: char)
    ensures Without(a + b, c) == Without(a, c) + Without(b, c)
  {
    if a == [] {
      assert a + b == b;
    } else {
      assert (a + b)[1..] == a[1..] + b;
      WithoutAppend(a[1..], b, c);
    }
  }

  /** `s.replace(a, b)` for one-character `a` and `b`. */
  function ReplaceChar(s: string, a: char, b: char): (r: string)
    ensures |r| == |s|
    ensures forall i :: 0 <= i < |s| ==> r[i] == (if s[i] == a then b else s[i])
  {
    seq(|s|, i requires 0 <= i < |s| => if s[i] == a then b else s[i])
  }

  /**
   * `Path(base) / part` rendered as a POSIX string: an absolute `part` replaces
   * `base`, an empty `part` leaves `base`, otherwise the two are joined by '/'.
   * (Normalisation of '.' segments, repeated and trailing separators is not
   * modelled.)
   */
  function Join(base: string, part: string): string
  {
    if part != [] && part[0] == '/' then part
    else if part == [] then base
    else base + "/" + part
  }
}
