/**
 * Python dicts keyed by strings, as the registries use them: entries keep the
 * order in which their key was first inserted, and assigning to an existing
 * key replaces its value in place. A dict comprehension
 * `{k(x): x for x in xs}` is the fold of `Put` over `xs`.
 */
module OrderedDict {
  import opened Results

  type Dict<V> = seq<(string, V)>

  function Keys<V>(d: Dict<V>): seq<string>
  {
    seq(|d|, i requires 0 <= i < |d| => d[i].0)
  }

  ghost predicate DistinctKeys<V>(d: Dict<V>)
  {
    forall i, j :: 0 <= i < j < |d| ==> d[i].0 != d[j].0
  }

  /** Position of the first entry with key `k`. */
  function IndexOf<V>(d: Dict<V>, k: string): (i: nat)
    requires k in Keys(d)
    ensures i < |d| && d[i].0 == k
    ensures forall j :: 0 <= j < i ==> d[j].0 != k
  {
    if d[0].0 == k then 0
    else
      assert Keys(d) == [d[0].0] + Keys(d[1..]);
      1 + IndexOf(d[1..], k)
  }

  /** `d.get(k)`. */
  function Get<V>(d: Dict<V>, k: string): (r: Option<V>)
    ensures r.Some? <==> k in Keys(d)
  {
    if k in Keys(d) then Some(d[IndexOf(d, k)].1) else None
  }

  /** `d[k] = v`. */
  function Put<V>(d: Dict<V>, k: string, v: V): (r: Dict<V>)
    ensures Keys(r) == if k in Keys(d) then Keys(d) else Keys(d) + [k]
    ensures DistinctKeys(d) ==> DistinctKeys(r)
    ensures Get(r, k) == Some(v)
    ensures forall k' :: k' != k ==> Get(r, k') == Get(d, k')
  {
    if k in Keys(d) then
      var i := IndexOf(d, k);
      var r := d[i := (k, v)];
      assert Keys(r) == Keys(d);
      assert forall k' :: k' != k && k' in Keys(d) ==> IndexOf(r, k') == IndexOf(d, k') by {
        forall k' | k' != k && k' in Keys(d) ensures IndexOf(r, k') == IndexOf(d, k') {
          IndexOfUnique(r, k', IndexOf(d, k'));
        }
      }
      assert IndexOf(r, k) == i by {
        IndexOfUnique(r, k, i);
      }
      r
    else
      var r := d + [(k, v)];
      assert Keys(r) == Keys(d) + [k];
      assert forall k' :: k' != k && k' in Keys(d) ==> IndexOf(r, k') == IndexOf(d, k') by {
        forall k' | k' != k && k' in Keys(d) ensures IndexOf(r, k') == IndexOf(d, k') {
          IndexOfUnique(r, k', IndexOf(d, k'));
        }
      }
      assert IndexOf(r, k) == |d| by {
        assert forall j :: 0 <= j < |d| ==> Keys(d)[j] == r[j].0;
        IndexOfUnique(r, k, |d|);
      }
      r
  }

  lemma IndexOfUnique<V>(d: Dict<V>, k: string, i: nat)
    requires i < |d| && d[i].0 == k
    requires forall j :: 0 <= j < i ==> d[j].0 != k
    ensures k in Keys(d) && IndexOf(d, k) == i
  {
    assert Keys(d)[i] == k;
    var m := IndexOf(d, k);
    assert !(m < i) && !(i < m);
  }

  /** The keys of a sequence of pairs, in order. */
  function PairKeys<V>(ps: seq<(string, V)>): seq<string>
  {
    seq(|ps|, i requires 0 <= i < |ps| => ps[i].0)
  }

  /** `s` with every element after its first occurrence dropped. */
  function FirstOccurrences(s: seq<string>): seq<string>
  {
    if s == [] then []
    else
      var prefix := FirstOccurrences(s[..|s| - 1]);
      if s[|s| - 1] in prefix then prefix else prefix + [s[|s| - 1]]
  }

  /** `{k: v for (k, v) in ps}`: the fold of `Put` over `ps` from the left. */
  function FromPairs<V>(ps: seq<(string, V)>): (d: Dict<V>)
    ensures DistinctKeys(d)
    ensures forall k :: k in Keys(d) <==> k in PairKeys(ps)
  {
    if ps == [] then []
    else
      var prefix := ps[..|ps| - 1];
      var last := ps[|ps| - 1];
      assert PairKeys(ps) == PairKeys(prefix) + [last.0];
      Put(FromPairs(prefix), last.0, last.1)
  }

  /** When several pairs share a key, the value of the last one is kept. */
  lemma {:induction false} FromPairsLastWins<V>(ps: seq<(string, V)>, i: nat)
    requires i < |ps|
    requires forall j :: i < j < |ps| ==> ps[j].0 != ps[i].0
    ensures Get(FromPairs(ps), ps[i].0) == Some(ps[i].1)
  {
    var prefix := ps[..|ps| - 1];
    if i < |ps| - 1 {
      FromPairsLastWins(prefix, i);
    }
  }

  /** Keys appear in the order of their first occurrence, each once. */
  lemma {:induction false} FromPairsKeyOrder<V>(ps: seq<(string, V)>)
    ensures Keys(FromPairs(ps)) == FirstOccurrences(PairKeys(ps))
  {
    if ps != [] {
      var prefix := ps[..|ps| - 1];
      assert PairKeys(ps)[..|ps| - 1] == PairKeys(prefix);
      FromPairsKeyOrder(prefix);
    }
  }
}
