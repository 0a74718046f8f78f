/** Sums over the accounts of a map. */
module Sums {
  import opened Bytes

  ghost function Pick(keys: set<Hash>): (k: Hash)
    requires keys != {}
    ensures k in keys
  {
    var k :| k in keys;
    k
  }

  ghost function Sum(m: map<Hash, nat>): nat {
    if m.Keys == {} then 0
    else
      var k := Pick(m.Keys);
      m[k] + Sum(m - {k})
  }

  lemma {:induction false} SumTakesOut(m: map<Hash, nat>, k: Hash)
    requires k in m
    ensures Sum(m) == m[k] + Sum(m - {k})
    decreases |m|
  {
    var p := Pick(m.Keys);
    if p != k {
      assert k in m - {p} && p in m - {k};
      SumTakesOut(m - {p}, k);
      SumTakesOut(m - {k}, p);
      assert m - {p} - {k} == m - {k} - {p};
    }
  }

  function Lookup(m: map<Hash, nat>, k: Hash): nat {
    if k in m then m[k] else 0
  }

  lemma {:induction false} SumAfterUpdate(m: map<Hash, nat>, k: Hash, v: nat)
    ensures Sum(m[k := v]) == Sum(m) - Lookup(m, k) + v
    ensures Lookup(m, k) <= Sum(m)
  {
    var m1 := m[k := v];
    SumTakesOut(m1, k);
    if k in m {
      SumTakesOut(m, k);
      assert m1 - {k} == m - {k};
    } else {
      assert m1 - {k} == m;
    }
  }

  lemma {:induction false} SumWithoutOne(m: map<Hash, nat>, m1: map<Hash, nat>, k: Hash)
    requires m1.Keys == m.Keys + {k} && m1[k] == 0
    requires forall j :: j in m && j != k ==> m1[j] == m[j]
    ensures Sum(m1) == Sum(m) - Lookup(m, k)
  {
    assert m1 == m[k := 0];
    SumAfterUpdate(m, k, 0);
  }

  lemma {:induction false} SumWithOneChanged(m: map<Hash, nat>, m1: map<Hash, nat>, k: Hash)
    requires m1.Keys == m.Keys && k in m
    requires forall j :: j in m && j != k ==> m1[j] == m[j]
    ensures Sum(m1) == Sum(m) - m[k] + m1[k]
  {
    assert m1 == m[k := m1[k]];
    SumAfterUpdate(m, k, m1[k]);
  }

  /** A sum over fewer accounts is no larger. */
  lemma {:induction false} SumOverSome(m: map<Hash, nat>, some: map<Hash, nat>)
    requires forall k :: k in some ==> k in m && some[k] == m[k]
    ensures Sum(some) <= Sum(m)
    decreases |some|
  {
    if some.Keys != {} {
      var k := Pick(some.Keys);
      SumTakesOut(m, k);
      SumOverSome(m - {k}, some - {k});
    }
  }

  /** A sum of no larger amounts is no larger. */
  lemma {:induction false} SumIsMonotone(m: map<Hash, nat>, m1: map<Hash, nat>)
    requires m.Keys == m1.Keys
    requires forall k :: k in m ==> m[k] <= m1[k]
    ensures Sum(m) <= Sum(m1)
    decreases |m|
  {
    if m.Keys != {} {
      var k := Pick(m.Keys);
      SumTakesOut(m, k);
      SumTakesOut(m1, k);
      SumIsMonotone(m - {k}, m1 - {k});
    }
  }

  /** grown is at most what n accounts holding amount in all can grow to, each off by at most error. */
  ghost predicate GrowsWithin(amount: nat, grown: nat, n: nat, factor: real, error: real) {
    grown as real <= factor * amount as real + error * n as real
  }

  /** If every account grows within a factor and an error, so does their sum, with one error for each account. */
  lemma {:induction false} SumGrowsWithin(m: map<Hash, nat>, m1: map<Hash, nat>, factor: real, error: real)
    requires m.Keys == m1.Keys
    requires forall k :: k in m ==> GrowsWithin(m[k], m1[k], 1, factor, error)
    ensures GrowsWithin(Sum(m), Sum(m1), |m|, factor, error)
    decreases |m|
  {
    if m.Keys == {} {
      assert m == map[] && m1 == map[];
    } else {
      var k := Pick(m.Keys);
      SumTakesOut(m, k);
      SumTakesOut(m1, k);
      SumGrowsWithin(m - {k}, m1 - {k}, factor, error);
      assert |m| == |m - {k}| + 1;
      GrowthsAdd(m[k], m1[k], 1, Sum(m - {k}), Sum(m1 - {k}), |m - {k}|, factor, error);
    }
  }

  lemma {:induction false} GrowthsAdd(a: nat, a1: nat, n: nat, b: nat, b1: nat, k: nat, factor: real, error: real)
    requires GrowsWithin(a, a1, n, factor, error) && GrowsWithin(b, b1, k, factor, error)
    ensures GrowsWithin(a + b, a1 + b1, n + k, factor, error)
  {
    Distributes(factor, a as real, b as real);
    Distributes(error, n as real, k as real);
  }

  lemma {:induction false} Distributes(x: real, a: real, b: real)
    ensures x * (a + b) == x * a + x * b
  {
  }

  /** Accounts that agree pairwise have the same sum. */
  lemma {:induction false} SumsSplit(m: map<Hash, nat>, a: map<Hash, nat>, b: map<Hash, nat>)
    requires m.Keys == a.Keys == b.Keys
    requires forall k :: k in m ==> m[k] == a[k] + b[k]
    ensures Sum(m) == Sum(a) + Sum(b)
    decreases |m|
  {
    if m.Keys != {} {
      var k := Pick(m.Keys);
      SumTakesOut(m, k);
      SumTakesOut(a, k);
      SumTakesOut(b, k);
      assert (m - {k}).Keys == (a - {k}).Keys == (b - {k}).Keys;
      SumsSplit(m - {k}, a - {k}, b - {k});
    }
  }
}
