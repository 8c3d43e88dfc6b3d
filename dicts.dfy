/**
 * Python dictionaries built by a display or a comprehension: the pairs are
 * inserted in order, and a later pair replaces an earlier one with the same key.
 */
module Dicts {

  ghost predicate DistinctKeys<K, V>(pairs: seq<(K, V)>) {
    forall i, j | 0 <= i < j < |pairs| :: pairs[i].0 != pairs[j].0
  }

  /** The keys of `pairs`, as a set. */
  ghost function Keys<K, V>(pairs: seq<(K, V)>): set<K> {
    set i | 0 <= i < |pairs| :: pairs[i].0
  }

  /** The dict obtained by inserting `pairs` one after the other. */
  function FromPairs<K, V>(pairs: seq<(K, V)>): (m: map<K, V>)
    ensures m.Keys == Keys(pairs)
    ensures |m| <= |pairs|
    ensures forall k | k in m :: exists i | 0 <= i < |pairs| :: pairs[i] == (k, m[k])
  {
    if |pairs| == 0 then map[]
    else
      var init := pairs[..|pairs| - 1];
      KeysSnoc(init, pairs[|pairs| - 1]);
      assert init + [pairs[|pairs| - 1]] == pairs;
      FromPairs(init)[pairs[|pairs| - 1].0 := pairs[|pairs| - 1].1]
  }

  /** Appending a pair adds its key to the keys. */
  lemma KeysSnoc<K, V>(init: seq<(K, V)>, last: (K, V))
    ensures Keys(init + [last]) == Keys(init) + {last.0}
  {
    var pairs := init + [last];
    forall k | k in Keys(pairs) ensures k in Keys(init) + {last.0} {
      var i :| 0 <= i < |pairs| && pairs[i].0 == k;
      if i < |init| {
        assert init[i] == pairs[i];
      }
    }
    forall k | k in Keys(init) ensures k in Keys(pairs) {
      var i :| 0 <= i < |init| && init[i].0 == k;
      assert pairs[i] == init[i];
    }
    assert pairs[|init|] == last;
  }

  /** The value stored for a key is that of the last pair carrying it. */
  lemma {:induction false} FromPairsLastWins<K, V>(pairs: seq<(K, V)>, i: nat)
    requires i < |pairs|
    requires forall j | i < j < |pairs| :: pairs[j].0 != pairs[i].0
    ensures pairs[i].0 in FromPairs(pairs)
    ensures FromPairs(pairs)[pairs[i].0] == pairs[i].1
  {
    if i < |pairs| - 1 {
      var init := pairs[..|pairs| - 1];
      assert init[i] == pairs[i];
      FromPairsLastWins(init, i);
    }
  }

  /** With distinct keys every pair is kept, and nothing is lost or merged. */
  lemma {:induction false} FromPairsDistinct<K, V>(pairs: seq<(K, V)>)
    requires DistinctKeys(pairs)
    ensures |FromPairs(pairs)| == |pairs|
    ensures forall i | 0 <= i < |pairs| :: FromPairs(pairs)[pairs[i].0] == pairs[i].1
  {
    if |pairs| > 0 {
      var init := pairs[..|pairs| - 1];
      FromPairsDistinct(init);
      assert pairs[|pairs| - 1].0 !in FromPairs(init);
    }
    forall i | 0 <= i < |pairs| ensures FromPairs(pairs)[pairs[i].0] == pairs[i].1 {
      FromPairsLastWins(pairs, i);
    }
  }
}
