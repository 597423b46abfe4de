/** Count maps, as built by `counts[k] = (counts[k] || 0) + 1` inside a `forEach`. */
module Counts {

  /** One more occurrence of `k`; a missing key counts as zero. */
  function Bump(m: map<string, nat>, k: string): (r: map<string, nat>)
    ensures r.Keys == m.Keys + {k}
    ensures r[k] == (if k in m then m[k] else 0) + 1
    ensures forall j :: j in m && j != k ==> r[j] == m[j]
  {
    m[k := (if k in m then m[k] else 0) + 1]
  }

  /** The sum of all values of a count map. */
  ghost function Sum(m: map<string, nat>): nat
    decreases |m|
  {
    if m == map[] then 0 else var k :| k in m; m[k] + Sum(m - {k})
  }

  /** The sum does not depend on which key is taken out first. */
  lemma {:induction false} SumRemove(m: map<string, nat>, k: string)
    requires k in m
    ensures Sum(m) == m[k] + Sum(m - {k})
    decreases |m|
  {
    var j :| j in m && Sum(m) == m[j] + Sum(m - {j});
    if j != k {
      var mj, mk := m - {j}, m - {k};
      assert |mj| < |m| && |mk| < |m|;
      SumRemove(mj, k);
      SumRemove(mk, j);
      assert mj - {k} == mk - {j};
    }
  }

  /** One bump adds exactly one to the sum. */
  lemma SumBump(m: map<string, nat>, k: string)
    ensures Sum(Bump(m, k)) == Sum(m) + 1
  {
    var b := Bump(m, k);
    SumRemove(b, k);
    if k in m {
      SumRemove(m, k);
      assert b - {k} == m - {k};
    } else {
      assert b - {k} == m;
    }
  }

  /** How often `k` occurs in `keys`. */
  function Occurrences(keys: seq<string>, k: string): nat {
    |set i | 0 <= i < |keys| && keys[i] == k|
  }

  /** The count map of a key sequence, the keys taken from left to right. */
  function Tally(keys: seq<string>): map<string, nat>
    decreases |keys|
  {
    if keys == [] then map[] else Bump(Tally(keys[..|keys| - 1]), keys[|keys| - 1])
  }

  /** Counting one more key bumps its count. */
  lemma TallySnoc(keys: seq<string>, k: string)
    ensures Tally(keys + [k]) == Bump(Tally(keys), k)
  {
    assert (keys + [k])[..|keys|] == keys;
  }

  /** The counts add up to the number of keys counted. */
  lemma {:induction false} TallySum(keys: seq<string>)
    ensures Sum(Tally(keys)) == |keys|
    decreases |keys|
  {
    if keys != [] {
      TallySum(keys[..|keys| - 1]);
      SumBump(Tally(keys[..|keys| - 1]), keys[|keys| - 1]);
    }
  }

  lemma OccurrencesSnoc(front: seq<string>, x: string, k: string)
    ensures Occurrences(front + [x], k) == Occurrences(front, k) + if x == k then 1 else 0
  {
    var keys := front + [x];
    var n := |front|;
    var before := set i | 0 <= i < n && front[i] == k;
    var now := set i | 0 <= i < |keys| && keys[i] == k;
    assert forall i :: 0 <= i < n ==> keys[i] == front[i];
    if x == k {
      assert now == before + {n};
    } else {
      assert now == before;
    }
  }

  /** A key is counted exactly when it occurs, and then with its number of occurrences. */
  lemma {:induction false} TallyCounts(keys: seq<string>, k: string)
    ensures k in Tally(keys) <==> k in keys
    ensures k in Tally(keys) ==> Tally(keys)[k] == Occurrences(keys, k)
    decreases |keys|
  {
    if keys != [] {
      var n := |keys| - 1;
      var front := keys[..n];
      TallyCounts(front, k);
      assert keys == front + [keys[n]];
      OccurrencesSnoc(front, keys[n], k);
      if k !in front && keys[n] == k {
        assert Occurrences(front, k) == 0 by {
          assert (set i | 0 <= i < |front| && front[i] == k) == {};
        }
      }
    }
  }

  /** The keys of the count map are exactly the distinct keys counted. */
  lemma TallyKeys(keys: seq<string>)
    ensures Tally(keys).Keys == set i | 0 <= i < |keys| :: keys[i]
  {
    forall k ensures k in Tally(keys) <==> k in set i | 0 <= i < |keys| :: keys[i] {
      TallyCounts(keys, k);
    }
  }
}
