/**
 * Query parameters as a Python dict: an insertion-ordered sequence of
 * key/value pairs with distinct keys, and the dict union `a | b` that the
 * quotes stream uses to extend its parent's parameters.
 */
module Params {
  import opened Wrappers

  /** A parameter value: the page size and offset are integers, `feature` is text. */
  datatype Value = Int(i: int) | Text(s: string)

  type Dict = seq<(string, Value)>

  /** The keys in insertion order (iteration order of a Python dict). */
  function Keys(d: Dict): (ks: seq<string>)
    ensures |ks| == |d|
  {
    if d == [] then [] else [d[0].0] + Keys(d[1..])
  }

  /** Every key appears once, as in any Python dict. */
  predicate Distinct(ks: seq<string>) {
    forall i, j :: 0 <= i < j < |ks| ==> ks[i] != ks[j]
  }

  /** `d.get(k)`. */
  function Get(d: Dict, k: string): (r: Option<Value>) {
    if d == [] then None
    else if d[0].0 == k then Some(d[0].1)
    else Get(d[1..], k)
  }

  /** `d[k] = v`: an existing key keeps its position and takes the new value; a new key is appended. */
  function Put(d: Dict, k: string, v: Value): (r: Dict) {
    if d == [] then [(k, v)]
    else if d[0].0 == k then [(k, v)] + d[1..]
    else [d[0]] + Put(d[1..], k, v)
  }

  /** `a | b`: a copy of `a` updated with each entry of `b` in order. */
  function Union(a: Dict, b: Dict): (r: Dict)
    decreases |b|
  {
    if b == [] then a else Union(Put(a, b[0].0, b[0].1), b[1..])
  }

  lemma {:induction false} PutGet(d: Dict, k: string, v: Value, k': string)
    ensures Get(Put(d, k, v), k') == if k' == k then Some(v) else Get(d, k')
  {
    if d != [] && d[0].0 != k {
      PutGet(d[1..], k, v, k');
    }
  }

  lemma {:induction false} KeysMember(d: Dict, k: string)
    ensures k in Keys(d) <==> Get(d, k).Some?
  {
    if d != [] {
      KeysMember(d[1..], k);
    }
  }

  lemma {:induction false} PutKeys(d: Dict, k: string, v: Value)
    ensures Keys(Put(d, k, v)) == if k in Keys(d) then Keys(d) else Keys(d) + [k]
  {
    if d != [] && d[0].0 != k {
      PutKeys(d[1..], k, v);
      assert Put(d, k, v)[1..] == Put(d[1..], k, v);
      assert Keys(d) == [d[0].0] + Keys(d[1..]);
    } else if d != [] {
      assert Put(d, k, v)[1..] == d[1..];
    }
  }

  /** In `a | b` a key of `b` takes `b`'s value and every other key keeps `a`'s. */
  lemma {:induction false} UnionGet(a: Dict, b: Dict, k: string)
    requires Distinct(Keys(b))
    ensures Get(Union(a, b), k) == if Get(b, k).Some? then Get(b, k) else Get(a, k)
    decreases |b|
  {
    if b != [] {
      var kb := Keys(b);
      assert Keys(b[1..]) == kb[1..];
      assert Distinct(Keys(b[1..]));
      UnionGet(Put(a, b[0].0, b[0].1), b[1..], k);
      PutGet(a, b[0].0, b[0].1, k);
      if k == b[0].0 {
        assert kb[0] == k;
        forall j | 0 <= j < |kb| - 1 ensures kb[1..][j] != k {
          assert kb[1..][j] == kb[j + 1];
        }
        KeysMember(b[1..], k);
      }
    }
  }
}
