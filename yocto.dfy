/**
 * Ledger arithmetic: the widths of the contract's integers, the campaign
 * creation fee, the 90/10 split of a donation, and the total of a donation map.
 */
module Yocto {

  /** 2^64: every `u64` (ids, counters, timestamps, deadlines) is below it. */
  const U64_LIMIT: nat := 0x1_0000_0000_0000_0000
  /** 2^128: every `u128` yocto amount is below it. */
  const U128_LIMIT: nat := 0x1_0000_0000_0000_0000_0000_0000_0000_0000
  /** 0.01 NEAR in yocto (10^22), the least deposit `create_campaign` accepts. */
  const CREATION_FEE: nat := 10_000_000_000_000_000_000_000

  predicate IsU64(n: int) {
    0 <= n < U64_LIMIT
  }

  predicate IsU128(n: int) {
    0 <= n < U128_LIMIT
  }

  /** How a donation is shared out: the creator's part and the platform's remainder. */
  datatype Split = Split(creator: nat, platform: nat)

  /**
   * The creator receives `amount * 90 / 100` (integer division, rounding down)
   * and the platform wallet the rest, so no yocto is lost or created.
   */
  function RevenueSplit(amount: nat): (s: Split)
    ensures s.creator + s.platform == amount
    ensures s.creator <= amount
    ensures s.creator * 100 <= amount * 90 < s.creator * 100 + 100
  {
    var creator := amount * 90 / 100;
    assert creator * 100 <= amount * 90 < creator * 100 + 100;
    Split(creator, amount - creator)
  }

  /** The total of all values of a map, in no particular order of keys. */
  ghost function Sum<K>(m: map<K, nat>): nat
    decreases |m|
  {
    if m == map[] then 0
    else
      var k :| k in m;
      m[k] + Sum(m - {k})
  }

  /** Any key can be taken out first: the total does not depend on the order. */
  lemma {:induction false} SumRemove<K>(m: map<K, nat>, k: K)
    requires k in m
    ensures Sum(m) == m[k] + Sum(m - {k})
    decreases |m|
  {
    var j :| j in m && Sum(m) == m[j] + Sum(m - {j});
    if j != k {
      assert m - {j} - {k} == m - {k} - {j};
      assert |m - {j}| < |m|;
      assert |m - {k}| < |m|;
      SumRemove(m - {j}, k);
      SumRemove(m - {k}, j);
      assert (m - {j})[k] == m[k];
      assert (m - {k})[j] == m[j];
    }
  }

  /** Setting one key to `v` changes the total by the difference to its old value (0 if absent). */
  lemma SumUpdate<K>(m: map<K, nat>, k: K, v: nat)
    ensures Sum(m[k := v]) + (if k in m then m[k] else 0) == Sum(m) + v
  {
    var m' := m[k := v];
    SumRemove(m', k);
    assert m' - {k} == m - {k};
    if k in m {
      SumRemove(m, k);
    } else {
      assert m - {k} == m;
    }
  }
}
