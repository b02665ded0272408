/** Sums over the payment entries of an account, independent of iteration order. */
module PaymentTotals {
  import opened AccountTypes

  ghost function Total(m: Payments, weight: PaymentEntry -> int): int
    decreases |m|
  {
    if m == map[] then 0
    else
      var h :| h in m;
      weight(m[h]) + Total(m - {h}, weight)
  }

  /** Any entry may be taken out of the sum first. */
  lemma {:induction false} TotalPick(m: Payments, weight: PaymentEntry -> int, h: Hash)
    requires h in m
    ensures Total(m, weight) == weight(m[h]) + Total(m - {h}, weight)
    decreases |m|
  {
    var k :| k in m && Total(m, weight) == weight(m[k]) + Total(m - {k}, weight);
    if k != h {
      TotalPick(m - {k}, weight, h);
      TotalPick(m - {h}, weight, k);
      assert m - {k} - {h} == m - {h} - {k};
    }
  }

  ghost function WeightAt(m: Payments, weight: PaymentEntry -> int, h: Hash): int {
    if h in m then weight(m[h]) else 0
  }

  lemma TotalUpdate(m: Payments, weight: PaymentEntry -> int, h: Hash, e: PaymentEntry)
    ensures Total(m[h := e], weight) == Total(m, weight) - WeightAt(m, weight, h) + weight(e)
  {
    var m' := m[h := e];
    TotalPick(m', weight, h);
    assert m' - {h} == m - {h};
    TotalRemove(m, weight, h);
  }

  lemma TotalRemove(m: Payments, weight: PaymentEntry -> int, h: Hash)
    ensures Total(m - {h}, weight) == Total(m, weight) - WeightAt(m, weight, h)
  {
    if h in m {
      TotalPick(m, weight, h);
    } else {
      assert m - {h} == m;
    }
  }

  lemma {:induction false} TotalNonNegative(m: Payments, weight: PaymentEntry -> int)
    requires forall e :: weight(e) >= 0
    ensures Total(m, weight) >= 0
    ensures forall h :: h in m ==> weight(m[h]) <= Total(m, weight)
    decreases |m|
  {
    if m != map[] {
      var k :| k in m;
      TotalPick(m, weight, k);
      TotalNonNegative(m - {k}, weight);
      forall h | h in m
        ensures weight(m[h]) <= Total(m, weight)
      {
        TotalPick(m, weight, h);
        TotalNonNegative(m - {h}, weight);
      }
    }
  }

  /** Totals depend on the weights of the entries only, and grow with them. */
  lemma {:induction false} TotalMonotone(m: Payments, m': Payments, weight: PaymentEntry -> int)
    requires m.Keys == m'.Keys
    requires forall h :: h in m ==> weight(m[h]) <= weight(m'[h])
    ensures Total(m, weight) <= Total(m', weight)
    decreases |m|
  {
    if m != map[] {
      var k :| k in m;
      TotalPick(m, weight, k);
      TotalPick(m', weight, k);
      TotalMonotone(m - {k}, m' - {k}, weight);
    } else {
      assert m' == map[];
    }
  }

  lemma {:induction false} TotalAtMostSum(m: Payments, m': Payments, weight: PaymentEntry -> int,
                                          u: PaymentEntry -> int, v: PaymentEntry -> int)
    requires m.Keys == m'.Keys
    requires forall h :: h in m ==> weight(m'[h]) <= u(m[h]) + v(m[h])
    ensures Total(m', weight) <= Total(m, u) + Total(m, v)
    decreases |m|
  {
    if m != map[] {
      var k :| k in m;
      TotalPick(m, u, k);
      TotalPick(m, v, k);
      TotalPick(m', weight, k);
      TotalAtMostSum(m - {k}, m' - {k}, weight, u, v);
    } else {
      assert m' == map[];
    }
  }

  lemma {:induction false} TotalAtLeastSum(m: Payments, m': Payments, weight: PaymentEntry -> int,
                                           u: PaymentEntry -> int, v: PaymentEntry -> int)
    requires m.Keys == m'.Keys
    requires forall h :: h in m ==> weight(m'[h]) >= u(m[h]) + v(m[h])
    ensures Total(m', weight) >= Total(m, u) + Total(m, v)
    decreases |m|
  {
    if m != map[] {
      var k :| k in m;
      TotalPick(m, u, k);
      TotalPick(m, v, k);
      TotalPick(m', weight, k);
      TotalAtLeastSum(m - {k}, m' - {k}, weight, u, v);
    } else {
      assert m' == map[];
    }
  }

  /** The amount an entry withholds from the account while it is in flight. */
  function InFlightWeight(e: PaymentEntry): int {
    if InflightState(e.status) then e.fullAmount else 0
  }

  /** The amount an entry has taken from the account for good. */
  function SettledWeight(e: PaymentEntry): int {
    if SuccessState(e.status) then e.fullAmount else 0
  }

  ghost function InFlight(a: Account): int {
    Total(a.payments, InFlightWeight)
  }

  ghost function Settled(a: Account): int {
    Total(a.payments, SettledWeight)
  }
}
