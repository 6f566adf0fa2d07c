/**
 * The metrics engine: `calculateMetrics` partitions a project's transactions
 * by type, sums each part, and derives profit, profit margin and the
 * tracker's own "ROI" (income as a percentage of expense), with division by
 * zero defined to give 0.
 */
module Utils {
  import opened Types
  import opened Lists

  /** `reduce((sum, t) => sum + t.amount, 0)`: a left fold over the amounts. */
  function Sum(ts: seq<Transaction>): real
  {
    if ts == [] then 0.0 else Sum(ts[..|ts| - 1]) + ts[|ts| - 1].amount
  }

  /** `filter(t => t.type === k)`. */
  function OfKind(ts: seq<Transaction>, k: TxType): (r: seq<Transaction>)
    ensures |r| <= |ts|
    ensures forall t :: t in r <==> t in ts && t.kind == k
  {
    Filter(ts, (t: Transaction) => t.kind == k)
  }

  /**
   * Reference definition: the sum of `amount` over exactly the transactions
   * of kind k; every other transaction contributes nothing.
   */
  function KindSum(ts: seq<Transaction>, k: TxType): real
  {
    if ts == [] then 0.0
    else (if ts[0].kind == k then ts[0].amount else 0.0) + KindSum(ts[1..], k)
  }

  predicate AllNonNegative(ts: seq<Transaction>)
  {
    forall i :: 0 <= i < |ts| ==> ts[i].amount >= 0.0
  }

  /** The store's entry rule: every recorded amount is strictly positive. */
  predicate AllPositive(ts: seq<Transaction>)
  {
    forall i :: 0 <= i < |ts| ==> ts[i].amount > 0.0
  }

  function CalculateMetrics(p: Project): (m: ProjectMetrics)
    ensures m.totalIncome == KindSum(p.transactions, Income)
    ensures m.totalExpense == KindSum(p.transactions, Expense)
    ensures m.profit == m.totalIncome - m.totalExpense
    ensures m.totalIncome > 0.0 ==> m.profitMargin == m.profit / m.totalIncome * 100.0
    ensures m.totalIncome <= 0.0 ==> m.profitMargin == 0.0
    ensures m.totalExpense > 0.0 ==> m.roi == m.totalIncome / m.totalExpense * 100.0
    ensures m.totalExpense <= 0.0 ==> m.roi == 0.0
  {
    SumOfKindIsKindSum(p.transactions, Income);
    SumOfKindIsKindSum(p.transactions, Expense);
    var totalIncome := Sum(OfKind(p.transactions, Income));
    var totalExpense := Sum(OfKind(p.transactions, Expense));
    var profit := totalIncome - totalExpense;
    var profitMargin := if totalIncome > 0.0 then profit / totalIncome * 100.0 else 0.0;
    var roi := if totalExpense > 0.0 then totalIncome / totalExpense * 100.0 else 0.0;
    ProjectMetrics(totalIncome, totalExpense, profit, profitMargin, roi)
  }

  // ---------------------------------------------------------------------
  // Sums

  lemma {:induction false} SumConcat(a: seq<Transaction>, b: seq<Transaction>)
    ensures Sum(a + b) == Sum(a) + Sum(b)
  {
    if b != [] {
      assert (a + b)[..|a + b| - 1] == a + b[..|b| - 1];
      SumConcat(a, b[..|b| - 1]);
    } else {
      assert a + b == a;
    }
  }

  /** Filter-then-reduce computes exactly the kind-restricted sum. */
  lemma {:induction false} SumOfKindIsKindSum(ts: seq<Transaction>, k: TxType)
    ensures Sum(OfKind(ts, k)) == KindSum(ts, k)
  {
    if ts != [] {
      SumOfKindIsKindSum(ts[1..], k);
      if ts[0].kind == k {
        assert OfKind(ts, k) == [ts[0]] + OfKind(ts[1..], k);
        SumConcat([ts[0]], OfKind(ts[1..], k));
        assert Sum([ts[0]]) == ts[0].amount;
      } else {
        assert OfKind(ts, k) == OfKind(ts[1..], k);
      }
    }
  }

  lemma {:induction false} KindSumConcat(a: seq<Transaction>, b: seq<Transaction>, k: TxType)
    ensures KindSum(a + b, k) == KindSum(a, k) + KindSum(b, k)
  {
    if a != [] {
      assert (a + b)[1..] == a[1..] + b;
      KindSumConcat(a[1..], b, k);
    } else {
      assert a + b == b;
    }
  }

  lemma {:induction false} KindSumNonNegative(ts: seq<Transaction>, k: TxType)
    requires AllNonNegative(ts)
    ensures KindSum(ts, k) >= 0.0
  {
    if ts != [] {
      KindSumNonNegative(ts[1..], k);
    }
  }

  /** With positive amounts, a kind's sum is positive iff some transaction has that kind. */
  lemma {:induction false} KindSumPositiveIff(ts: seq<Transaction>, k: TxType)
    requires AllPositive(ts)
    ensures KindSum(ts, k) > 0.0 <==> exists i :: 0 <= i < |ts| && ts[i].kind == k
  {
    if ts != [] {
      KindSumPositiveIff(ts[1..], k);
      KindSumNonNegative(ts[1..], k);
      if exists i :: 0 <= i < |ts[1..]| && ts[1..][i].kind == k {
        var i :| 0 <= i < |ts[1..]| && ts[1..][i].kind == k;
        assert ts[i + 1].kind == k;
      }
      if exists i :: 0 <= i < |ts| && ts[i].kind == k {
        var i :| 0 <= i < |ts| && ts[i].kind == k;
        if i > 0 { assert ts[1..][i - 1].kind == k; }
      }
    }
  }

  // ---------------------------------------------------------------------
  // Properties of calculateMetrics

  /** Every transaction is counted exactly once: income plus expense is the sum of all amounts. */
  lemma MetricsPartition(p: Project)
    ensures CalculateMetrics(p).totalIncome + CalculateMetrics(p).totalExpense == Sum(p.transactions)
  {
    PartitionKindSums(p.transactions);
  }

  lemma {:induction false} PartitionKindSums(ts: seq<Transaction>)
    ensures KindSum(ts, Income) + KindSum(ts, Expense) == Sum(ts)
  {
    if ts != [] {
      PartitionKindSums(ts[1..]);
      assert ts == [ts[0]] + ts[1..];
      SumConcat([ts[0]], ts[1..]);
      assert Sum([ts[0]]) == ts[0].amount;
    }
  }

  /** A project with no transactions has all five figures equal to zero. */
  lemma MetricsOfEmpty(p: Project)
    requires p.transactions == []
    ensures CalculateMetrics(p) == ProjectMetrics(0.0, 0.0, 0.0, 0.0, 0.0)
  {
  }

  /**
   * Appending one transaction raises the total of its own kind by exactly its
   * amount and leaves the other total unchanged.
   */
  lemma MetricsAppend(p: Project, t: Transaction)
    ensures var before := CalculateMetrics(p);
            var after := CalculateMetrics(p.(transactions := p.transactions + [t]));
            && after.totalIncome == before.totalIncome + (if t.kind == Income then t.amount else 0.0)
            && after.totalExpense == before.totalExpense + (if t.kind == Expense then t.amount else 0.0)
  {
    KindSumConcat(p.transactions, [t], Income);
    KindSumConcat(p.transactions, [t], Expense);
  }

  /** One income of 1000 and one expense of 400 give profit 600, margin 60 and ROI 250. */
  lemma MetricsWorkedExample(p: Project)
    requires |p.transactions| == 2
    requires p.transactions[0].kind == Income && p.transactions[0].amount == 1000.0
    requires p.transactions[1].kind == Expense && p.transactions[1].amount == 400.0
    ensures CalculateMetrics(p) == ProjectMetrics(1000.0, 400.0, 600.0, 60.0, 250.0)
  {
    var ts := p.transactions;
    assert ts[1..][1..] == [];
    assert KindSum(ts[1..], Income) == 0.0;
    assert KindSum(ts[1..], Expense) == 400.0;
    assert KindSum(ts, Income) == 1000.0;
    assert KindSum(ts, Expense) == 400.0;
  }

  /**
   * With non-negative amounts both totals and the ROI are non-negative and
   * the profit margin never exceeds 100.
   */
  lemma MetricsBounds(p: Project)
    requires AllNonNegative(p.transactions)
    ensures var m := CalculateMetrics(p);
            && m.totalIncome >= 0.0 && m.totalExpense >= 0.0
            && m.roi >= 0.0
            && m.profit <= m.totalIncome
            && m.profitMargin <= 100.0
  {
    KindSumNonNegative(p.transactions, Income);
    KindSumNonNegative(p.transactions, Expense);
    var m := CalculateMetrics(p);
    if m.totalIncome > 0.0 {
      RatioAtMostOne(m.profit, m.totalIncome);
    }
  }

  lemma RatioAtMostOne(x: real, y: real)
    requires y > 0.0 && x <= y
    ensures x / y <= 1.0
  {
    assert x / y * y == x;
  }

  /**
   * With positive amounts the margin guard falls back to 0 exactly when there
   * is no income transaction, and the ROI guard exactly when there is no
   * expense transaction.
   */
  lemma MetricsGuardsIff(p: Project)
    requires AllPositive(p.transactions)
    ensures var ts := p.transactions;
            var m := CalculateMetrics(p);
            && (m.totalIncome > 0.0 <==> exists i :: 0 <= i < |ts| && ts[i].kind == Income)
            && (m.totalExpense > 0.0 <==> exists i :: 0 <= i < |ts| && ts[i].kind == Expense)
  {
    KindSumPositiveIff(p.transactions, Income);
    KindSumPositiveIff(p.transactions, Expense);
  }
}
