/**
 * A JavaScript `Record<string, string>` seen through `Object.entries`: the
 * list of its own (key, value) pairs in enumeration order, keys distinct.
 */
module Records {
  import opened Wrappers

  type Entry = (string, string)
  type Record = seq<Entry>

  function Keys(r: Record): (ks: seq<string>)
    ensures |ks| == |r|
    ensures forall i :: 0 <= i < |r| ==> ks[i] == r[i].0
  {
    if r == [] then [] else [r[0].0] + Keys(r[1..])
  }

  predicate DistinctKeys(r: Record)
  {
    forall i, j :: 0 <= i < j < |r| ==> r[i].0 != r[j].0
  }

  /** `r[k]`, or `None` when `k` is not an own key. */
  function Get(r: Record, k: string): (v: Option<string>)
    ensures v.Some? <==> k in Keys(r)
  {
    if r == [] then None
    else if r[0].0 == k then Some(r[0].1)
    else Get(r[1..], k)
  }

  /**
   * `r[k] = v` on an ordinary own data property: an existing key keeps its
   * position and takes the new value, a new key is appended.
   */
  function Put(r: Record, k: string, v: string): (r': Record)
    ensures Get(r', k) == Some(v)
    ensures forall k' :: k' != k ==> Get(r', k') == Get(r, k')
  {
    if r == [] then [(k, v)]
    else if r[0].0 == k then [(k, v)] + r[1..]
    else [r[0]] + Put(r[1..], k, v)
  }

  /** Assigning a key the record does not have appends exactly one entry. */
  lemma {:induction false} PutFreshAppends(r: Record, k: string, v: string)
    requires k !in Keys(r)
    ensures Put(r, k, v) == r + [(k, v)]
  {
    if r != [] {
      var tail := r[1..];
      assert Keys(r)[0] == r[0].0;
      assert k !in Keys(tail) by {
        forall i | 0 <= i < |tail| ensures Keys(tail)[i] != k {
          assert Keys(tail)[i] == Keys(r)[i + 1];
        }
      }
      PutFreshAppends(tail, k, v);
      assert Put(r, k, v) == [r[0]] + (tail + [(k, v)]);
      assert [r[0]] + (tail + [(k, v)]) == r + [(k, v)];
    }
  }

  lemma KeysAppend(r: Record, e: Entry)
    ensures Keys(r + [e]) == Keys(r) + [e.0]
  {
  }

  /** The first key of a record with distinct keys does not recur in its tail. */
  lemma DistinctKeysUncons(r: Record)
    requires DistinctKeys(r) && r != []
    ensures r[0].0 !in Keys(r[1..]) && DistinctKeys(r[1..])
  {
  }

  /** The key at position `i` does not occur among the keys before it. */
  lemma DistinctKeysPrefix(r: Record, i: int)
    requires DistinctKeys(r) && 0 <= i < |r|
    ensures r[i].0 !in Keys(r[..i])
  {
  }
}
