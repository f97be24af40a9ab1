/**
 * Counting over finite maps: the total number of votes a map of counters
 * holds, and how that total reacts to the updates the tally loops make.
 */
module Tally {

  /** Some element of a non-empty set; fixes the order in which `Sum` visits keys. */
  ghost function Pick<K>(s: set<K>): (k: K)
    requires s != {}
    ensures k in s
  {
    var k :| k in s; k
  }

  /** The sum of every count held in `m`. */
  ghost function Sum<K>(m: map<K, nat>): nat
    decreases |m|
  {
    if |m| == 0 then 0
    else
      var k := Pick(m.Keys);
      assert |m - {k}| == |m| - 1 by { assert (m - {k}).Keys == m.Keys - {k}; }
      m[k] + Sum(m - {k})
  }

  /** Removing one key takes exactly its count out of the total, whichever key it is. */
  lemma {:induction false} SumRemove<K>(m: map<K, nat>, k: K)
    requires k in m
    ensures Sum(m) == m[k] + Sum(m - {k})
    decreases |m|
  {
    var j := Pick(m.Keys);
    if j != k {
      var mj, mk := m - {j}, m - {k};
      assert mj.Keys == m.Keys - {j} && mk.Keys == m.Keys - {k};
      SumRemove(mj, k);
      SumRemove(mk, j);
      calc {
        Sum(m);
        m[j] + Sum(mj);
        m[j] + (mj[k] + Sum(mj - {k}));
        { assert mj - {k} == mk - {j}; }
        m[k] + (mk[j] + Sum(mk - {j}));
        m[k] + Sum(mk);
      }
    }
  }

  /** Adding one to an existing counter adds one to the total. */
  lemma {:induction false} SumIncrement<K>(m: map<K, nat>, k: K)
    requires k in m
    ensures Sum(m[k := m[k] + 1]) == Sum(m) + 1
  {
    var m' := m[k := m[k] + 1];
    SumRemove(m, k);
    SumRemove(m', k);
    assert m' - {k} == m - {k};
  }

  /** A map whose counters are all zero holds no votes. */
  lemma {:induction false} SumZero<K>(m: map<K, nat>)
    requires forall k :: k in m ==> m[k] == 0
    ensures Sum(m) == 0
    decreases |m|
  {
    if |m| != 0 {
      var k := Pick(m.Keys);
      SumRemove(m, k);
      assert (m - {k}).Keys == m.Keys - {k};
      SumZero(m - {k});
    }
  }
}
