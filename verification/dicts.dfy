/** Python's `dict` with string keys, as the model needs it: insertion
    ordered (`list(d.values())[-1]` is the most recently inserted key's
    value), assignment to an existing key keeps its position, and
    `update` assigns key by key in the argument's order. */
module Dicts {
  import opened Common

  type Dict<V> = seq<(string, V)>

  /** `d.get(k)`. */
  function Get<V>(d: Dict<V>, k: string): Option<V>
    decreases |d|
  {
    if |d| == 0 then None
    else if d[0].0 == k then Some(d[0].1)
    else Get(d[1..], k)
  }

  /** `k in d`. */
  predicate HasKey<V>(d: Dict<V>, k: string) {
    Get(d, k).Some?
  }

  /** `d.get(k, default)`. */
  function GetOr<V>(d: Dict<V>, k: string, default: V): V {
    Get(d, k).GetOr(default)
  }

  predicate UniqueKeys<V>(d: Dict<V>) {
    forall i, j :: 0 <= i < j < |d| ==> d[i].0 != d[j].0
  }

  function Keys<V>(d: Dict<V>): (ks: seq<string>)
    ensures |ks| == |d| && forall i :: 0 <= i < |d| ==> ks[i] == d[i].0
  {
    seq(|d|, i requires 0 <= i < |d| => d[i].0)
  }

  function Values<V>(d: Dict<V>): (vs: seq<V>)
    ensures |vs| == |d| && forall i :: 0 <= i < |d| ==> vs[i] == d[i].1
  {
    seq(|d|, i requires 0 <= i < |d| => d[i].1)
  }

  lemma {:induction false} HasKeyAt<V>(d: Dict<V>, k: string)
    ensures HasKey(d, k) <==> exists i :: 0 <= i < |d| && d[i].0 == k
    decreases |d|
  {
    if |d| > 0 {
      HasKeyAt(d[1..], k);
      if HasKey(d[1..], k) {
        var i :| 0 <= i < |d[1..]| && d[1..][i].0 == k;
        assert d[i + 1].0 == k;
      }
      if d[0].0 != k && (exists i :: 0 <= i < |d| && d[i].0 == k) {
        var i :| 0 <= i < |d| && d[i].0 == k;
        assert d[1..][i - 1].0 == k;
      }
    }
  }

  /** `d.get(k)` is the value of the first entry with key `k`. */
  lemma {:induction false} GetFirst<V>(d: Dict<V>, k: string, i: nat)
    requires i < |d| && d[i].0 == k
    requires forall j :: 0 <= j < i ==> d[j].0 != k
    ensures Get(d, k) == Some(d[i].1)
    decreases i
  {
    if i > 0 {
      GetFirst(d[1..], k, i - 1);
    }
  }

  /** The entry `d.get(k)` reads. */
  lemma {:induction false} GetIndex<V>(d: Dict<V>, k: string) returns (i: nat)
    requires HasKey(d, k)
    ensures i < |d| && d[i].0 == k && Get(d, k) == Some(d[i].1)
    decreases |d|
  {
    if d[0].0 == k {
      i := 0;
    } else {
      var j := GetIndex(d[1..], k);
      i := j + 1;
    }
  }

  /** `d[k] = v`: the new value is found under `k`, every other key keeps
      its value, an existing key keeps its place and a new key goes last. */
  function Put<V>(d: Dict<V>, k: string, v: V): (r: Dict<V>)
    ensures Get(r, k) == Some(v)
    ensures forall k' :: k' != k ==> Get(r, k') == Get(d, k')
    ensures HasKey(d, k) ==> |r| == |d|
    ensures !HasKey(d, k) ==> r == d + [(k, v)]
    ensures |r| > 0
    ensures UniqueKeys(d) ==> UniqueKeys(r)
    decreases |d|
  {
    if |d| == 0 then [(k, v)]
    else if d[0].0 == k then [(k, v)] + d[1..]
    else
      var r := [d[0]] + Put(d[1..], k, v);
      assert UniqueKeys(d) ==> UniqueKeys(r) by {
        if UniqueKeys(d) {
          HasKeyAt(d[1..], d[0].0);
          HasKeyAt(Put(d[1..], k, v), d[0].0);
        }
      }
      r
  }

  /** `d.update(e)`: every key of `e` now maps to its value in `e` (for
      the well-formed, unique-keyed `e` Python builds), every other key
      keeps its value from `d`. */
  function Update<V>(d: Dict<V>, e: Dict<V>): (r: Dict<V>)
    ensures UniqueKeys(e) ==> forall k :: Get(r, k) == (if HasKey(e, k) then Get(e, k) else Get(d, k))
    ensures |e| > 0 ==> |r| > 0
    decreases |e|
  {
    if |e| == 0 then d
    else
      var r := Update(Put(d, e[0].0, e[0].1), e[1..]);
      assert UniqueKeys(e) ==> UniqueKeys(e[1..]) && !HasKey(e[1..], e[0].0) by {
        if UniqueKeys(e) {
          HasKeyAt(e[1..], e[0].0);
        }
      }
      r
  }

  /** `list(d.values())[-1]`. */
  function LastValue<V>(d: Dict<V>): V
    requires |d| > 0
  {
    d[|d| - 1].1
  }
}
