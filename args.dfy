/**
 * Command-line windows: Python slicing of `sys.argv`, the window
 * `parse_cmd_args` hands to argparse, and the part of argparse the engines
 * rely on for positional arguments (one token per declared positional, and a
 * `choices` membership test).
 */
module Args {
  import opened Results
  import opened Outcomes

  /** A slice bound as Python normalises it for a sequence of length `n`. */
  function Bound(x: int, n: nat): (b: nat)
    ensures b <= n
    ensures 0 <= x <= n ==> b == x
  {
    if x < 0 then (if n + x < 0 then 0 else n + x) else if x > n then n else x
  }

  /** `s[i:j]` with Python's handling of negative and out-of-range bounds. */
  function Slice(s: seq<string>, i: int, j: int): (r: seq<string>)
    ensures 0 <= i <= j <= |s| ==> r == s[i..j]
    ensures |s| <= i ==> r == []
    ensures |r| <= |s|
  {
    var a, b := Bound(i, |s|), Bound(j, |s|);
    if a < b then s[a..b] else []
  }

  /**
   * The tokens `parse_cmd_args(config, arg_index, arg_stop_index)` parses:
   * `argv[arg_index:arg_stop_index]` when the stop index is truthy, else
   * `argv[arg_index:]` (so a stop index of 0 counts as absent).
   */
  function ArgWindow(argv: seq<string>, argIndex: int, argStopIndex: Option<int>): seq<string>
  {
    if argStopIndex.Some? && argStopIndex.value != 0 then Slice(argv, argIndex, argStopIndex.value)
    else Slice(argv, argIndex, |argv|)
  }

  /** A stop index of 0 behaves as no stop index at all. */
  lemma ZeroStopIsAbsent(argv: seq<string>, argIndex: int)
    ensures ArgWindow(argv, argIndex, Some(0)) == ArgWindow(argv, argIndex, None)
  {
  }

  /** A window without stop index is the tail of `argv` from `argIndex` on. */
  lemma OpenWindow(argv: seq<string>, argIndex: nat)
    ensures ArgWindow(argv, argIndex, None) == if argIndex <= |argv| then argv[argIndex..] else []
  {
  }

  /** The window `argv[k:k+1]` holds the one token at `k`, if there is one. */
  lemma OneTokenWindow(argv: seq<string>, k: nat)
    ensures ArgWindow(argv, k, Some(k + 1)) == if k < |argv| then [argv[k]] else []
  {
  }

  /** A positional argument as declared to argparse: its name, help and optional `choices`. */
  datatype ArgSpec = ArgSpec(dest: string, help: string, choices: Option<seq<string>>)

  predicate Allowed(spec: ArgSpec, token: string)
  {
    spec.choices.None? || token in spec.choices.value
  }

  /**
   * argparse on a parser that declares only the positionals `specs`: each
   * token is the value of the positional at the same place; a missing or an
   * extra token, or a token outside its `choices`, is a usage error.
   */
  function ParsePositionals(specs: seq<ArgSpec>, window: seq<string>): (r: Result<seq<string>, Failure>)
    ensures r.Ok? <==> |window| == |specs| && forall i :: 0 <= i < |specs| ==> Allowed(specs[i], window[i])
    ensures r.Ok? ==> r.value == window
    ensures r.Err? ==> r.error == UsageError
  {
    if |window| == |specs| && forall i :: 0 <= i < |specs| ==> Allowed(specs[i], window[i]) then Ok(window)
    else Err(UsageError)
  }
}
