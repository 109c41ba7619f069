/**
 * Identifier pools and sampling. A pool is the list of ids `1..n` that a
 * table's rows receive in insertion order; `random.sample(pool, k)` is
 * modelled by the positions it picks, which are distinct and inside the pool.
 */
module Pools {
  /** Table sizes fixed by the script. */
  const NUsers: nat := 120
  const LikeCount: nat := 400

  predicate Distinct<T(==)>(s: seq<T>) {
    forall i, j :: 0 <= i < j < |s| ==> s[i] != s[j]
  }

  /** `list(range(1, n + 1))`: every id from 1 to n, each once, in order. */
  function Pool(n: nat): (ids: seq<nat>)
    ensures |ids| == n
    ensures forall i :: 0 <= i < n ==> ids[i] == i + 1
    ensures forall id :: id in ids <==> 1 <= id <= n
    ensures Distinct(ids)
  {
    var ids := seq(n, i requires 0 <= i => i + 1);
    assert forall id :: 1 <= id <= n ==> id in ids by {
      forall id | 1 <= id <= n
        ensures id in ids
      {
        assert ids[id - 1] == id;
      }
    }
    ids
  }

  /** The positions `random.sample` draws from a pool of size `n`, `k` of them. */
  predicate IsSample(picks: seq<int>, n: nat, k: nat) {
    |picks| == k && Distinct(picks) && forall i :: 0 <= i < |picks| ==> 0 <= picks[i] < n
  }

  /** The elements at the sampled positions. */
  function Pick<T>(pool: seq<T>, picks: seq<int>): (chosen: seq<T>)
    requires forall i :: 0 <= i < |picks| ==> 0 <= picks[i] < |pool|
    ensures |chosen| == |picks|
    ensures forall i :: 0 <= i < |picks| ==> chosen[i] == pool[picks[i]]
  {
    seq(|picks|, i requires 0 <= i < |picks| => pool[picks[i]])
  }

  /** Sampling a pool without repetition yields distinct members of the pool. */
  lemma SampleDistinct<T>(pool: seq<T>, picks: seq<int>, k: nat)
    requires Distinct(pool) && IsSample(picks, |pool|, k)
    ensures Distinct(Pick(pool, picks))
    ensures forall x :: x in Pick(pool, picks) ==> x in pool
  {
  }
}
