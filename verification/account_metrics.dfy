/** The consolidated income metrics of
    `app/router/dashboard/analyti/components/AccountMetrics.tsx`: income
    converted to USD at fixed rates, progress towards a fixed goal, and
    the progress donut. */
module AccountMetrics {
  import opened Wrappers
  import opened Numeric
  import opened Sums
  import opened Progress

  datatype Currency = USD | CUP | EUR

  /** `CONVERSION_RATES`: USD per unit of the currency. */
  function ConversionRate(c: Currency): real {
    match c
    case USD => 1.0
    case CUP => 1.0 / 490.0
    case EUR => 1.0 / 0.86
  }

  datatype MetricTx = MetricTx(amount: real, account: string, date: string, currency: Currency)

  /** `tx.amount * rate` */
  function InUSD(tx: MetricTx): real {
    tx.amount * ConversionRate(tx.currency)
  }

  /** `totalIncomeUSD`: the `reduce` of the converted amounts. */
  function TotalIncomeUSD(txs: seq<MetricTx>): real {
    SumOf(txs, InUSD)
  }

  /** The amount where the transaction is in currency `c`, else 0. */
  function AmountIn(c: Currency): MetricTx -> real {
    (tx: MetricTx) => if tx.currency == c then tx.amount else 0.0
  }

  /** Converting each transaction and summing is the same as summing each
      currency on its own and converting the three sums. */
  lemma {:induction false} TotalByCurrency(txs: seq<MetricTx>)
    ensures TotalIncomeUSD(txs)
      == SumOf(txs, AmountIn(USD)) + SumOf(txs, AmountIn(CUP)) / 490.0 + SumOf(txs, AmountIn(EUR)) / 0.86
    decreases |txs|
  {
    if |txs| > 0 {
      TotalByCurrency(txs[..|txs| - 1]);
    }
  }

  /** The total does not depend on the order of the transactions. */
  lemma TotalOrderIndependent(a: seq<MetricTx>, b: seq<MetricTx>)
    requires multiset(a) == multiset(b)
    ensures TotalIncomeUSD(a) == TotalIncomeUSD(b)
  {
    SumOfPermutation(a, b, InUSD);
  }

  /** Income only: with no negative amounts the total is not negative. */
  lemma TotalNonNegative(txs: seq<MetricTx>)
    requires forall i :: 0 <= i < |txs| ==> txs[i].amount >= 0.0
    ensures TotalIncomeUSD(txs) >= 0.0
  {
    SumOfNonNegative(txs, InUSD);
  }

  /** `GLOBAL_GOAL_USD` */
  const GlobalGoalUSD: real := 50000.0

  datatype Metrics = Metrics(total: real, progress: int, color: string, donut: seq<Slice>)

  /** The derived constants: total, progress, colour and donut. */
  function ComputeMetrics(txs: seq<MetricTx>): (m: Metrics)
    ensures m.total == TotalIncomeUSD(txs)
    ensures m.progress <= 100
    ensures m.total >= GlobalGoalUSD ==> m.progress == 100 && m.color == Green
    // rounding reaches 100 from 99.5%, that is from a total of 49750
    ensures m.progress == 100 <==> m.total >= 49750.0
    ensures m.color == Green <==> m.progress == 100
    ensures m.progress < 100 ==>
      m.color == Blue && m.progress as real - 0.5 <= m.total / GlobalGoalUSD * 100.0 < m.progress as real + 0.5
    ensures |m.donut| == 2 && m.donut[0].value == Some(m.progress) && m.donut[0].fill == m.color
    ensures m.donut[1].value == Some(MaxInt(0, 100 - m.progress))
    ensures m.progress >= 0 ==> m.donut[0].value.value + m.donut[1].value.value == 100
  {
    var total := TotalIncomeUSD(txs);
    var p := CalculateProgress(total, GlobalGoalUSD);
    Metrics(total, p, ProgressColor(p), Donut(Some(p)))
  }

  /** The transactions the component ships with. */
  const SampleTransactions: seq<MetricTx> := [
    MetricTx(350.0, "Cuenta USD", "2023-10-24", USD),
    MetricTx(420.0, "Cuenta USD", "2023-09-20", USD),
    MetricTx(500.0, "Cuenta EUR", "2023-10-25", EUR),
    MetricTx(35000.0, "Cuenta CUP", "2023-10-26", CUP),
    MetricTx(120.0, "Cuenta EUR", "2023-10-01", EUR),
    MetricTx(75000.0, "Cuenta CUP", "2023-09-15", CUP)]

  /** With the shipped transactions the dashboard shows 3% progress, in blue. */
  lemma SampleProgress()
    ensures ComputeMetrics(SampleTransactions).progress == 3
    ensures ComputeMetrics(SampleTransactions).color == Blue
  {
    var s := SampleTransactions;
    assert s[..1][..0] == [];
    assert s[..2][..1] == s[..1] && s[..3][..2] == s[..2] && s[..4][..3] == s[..3];
    assert s[..5][..4] == s[..4] && s[..6] == s && s[..6][..5] == s[..5];
    assert SumOf(s[..1], InUSD) == 350.0;
    assert SumOf(s[..2], InUSD) == 770.0;
    assert SumOf(s[..3], InUSD) == 770.0 + 500.0 / 0.86;
    assert SumOf(s[..4], InUSD) == 770.0 + 500.0 / 0.86 + 35000.0 / 490.0;
    assert SumOf(s[..5], InUSD) == 770.0 + 620.0 / 0.86 + 35000.0 / 490.0;
    var total := 770.0 + 620.0 / 0.86 + 110000.0 / 490.0;
    assert TotalIncomeUSD(s) == total;
    RoundUnique(total / GlobalGoalUSD * 100.0, 3);
  }
}
