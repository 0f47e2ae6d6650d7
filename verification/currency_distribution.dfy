/** `aggregateTransactionData` and `getCurrencyColor` of
    `app/router/dashboard/analyti/components/CurrencyDistribution.tsx`: the
    per-currency bar chart of transaction volume. */
module CurrencyDistribution {
  import opened Wrappers
  import opened Strings
  import opened Sums
  import opened Grouping
  import opened AuthService

  const UsdColor := "#2563eb"
  const EurColor := "#10b981"
  const CupColor := "#ef4444"
  const OtherColor := "#6b7280"

  /** `getCurrencyColor`: the switch on the upper-cased code. */
  function CurrencyColor(currency: string): (c: string)
    ensures Upper(currency) == "USD" <==> c == UsdColor
    ensures Upper(currency) in {"EUR", "EURO"} <==> c == EurColor
    ensures Upper(currency) == "CUP" <==> c == CupColor
    ensures Upper(currency) !in {"USD", "EUR", "EURO", "CUP"} <==> c == OtherColor
  {
    var u := Upper(currency);
    if u == "USD" then UsdColor
    else if u == "EUR" || u == "EURO" then EurColor
    else if u == "CUP" then CupColor
    else OtherColor
  }

  /** The colour does not depend on the case of the code. */
  lemma ColorIgnoresCase(currency: string)
    ensures CurrencyColor(Upper(currency)) == CurrencyColor(currency)
  {
    UpperIdempotent(currency);
  }

  /** One bar: the currency, its summed amount, its number of transactions
      and its colour. */
  datatype ChartData = ChartData(currency: string, value: real, numTx: nat, color: string)

  /** `currency && !isNaN(amount)`: the transaction's card has a non-empty
      account type and its amount parsed. */
  predicate Accepted(t: Transaction) {
    t.card.account.accountType.Some? && t.card.account.accountType.value != "" && t.amount.Some?
  }

  function CurrencyOf(t: Transaction): string {
    t.card.account.accountType.GetOr("")
  }

  function AmountOf(t: Transaction): real {
    t.amount.GetOr(0.0)
  }

  /** Accepted and of currency `c`. */
  function AcceptedIn(c: string): Transaction -> bool {
    Both(Accepted, KeyIs(CurrencyOf, c))
  }

  function ToChart(b: Bucket<string>): ChartData {
    ChartData(b.key, b.total, b.count, CurrencyColor(b.key))
  }

  function TotalTx(r: seq<ChartData>): nat {
    if |r| == 0 then 0 else r[0].numTx + TotalTx(r[1..])
  }

  function TotalValue(r: seq<ChartData>): real {
    if |r| == 0 then 0.0 else r[0].value + TotalValue(r[1..])
  }

  /** `Object.values(aggregated)`: the buckets as bars, in insertion order. */
  function Charts(b: seq<Bucket<string>>): (r: seq<ChartData>)
    ensures |r| == |b|
    ensures forall i :: 0 <= i < |b| ==> r[i] == ToChart(b[i])
    ensures TotalTx(r) == SumCounts(b)
    ensures TotalValue(r) == SumTotals(b)
  {
    if |b| == 0 then [] else [ToChart(b[0])] + Charts(b[1..])
  }

  /** The bucket of `c` in the grouping of the accepted transactions holds
      the sum and the count of the accepted transactions of currency `c`. */
  lemma BucketIsCurrencyTotal(ts: seq<Transaction>, c: string)
    ensures SumWhere(Filter(ts, Accepted), CurrencyOf, AmountOf, c) == SumOf(ts, Keep(AcceptedIn(c), AmountOf))
    ensures CountWhere(Filter(ts, Accepted), CurrencyOf, c) == CountOf(ts, AcceptedIn(c))
  {
    SumOfFilterWhere(ts, Accepted, KeyIs(CurrencyOf, c), AmountOf);
    CountOfFilterWhere(ts, Accepted, KeyIs(CurrencyOf, c));
  }

  /** `aggregateTransactionData`: one bar per currency of the accepted
      transactions, in order of first appearance, with the sum and the
      count of that currency's accepted transactions. Rejected
      transactions count nowhere; the bars' counts add up to the number of
      accepted transactions and their values to the accepted volume. */
  function Aggregate(ts: seq<Transaction>): (r: seq<ChartData>)
    ensures |r| == |Keys(Filter(ts, Accepted), CurrencyOf)|
    ensures forall i :: 0 <= i < |r| ==> r[i].currency == Keys(Filter(ts, Accepted), CurrencyOf)[i]
    ensures forall i, j :: 0 <= i < j < |r| ==> r[i].currency != r[j].currency
    ensures forall i :: 0 <= i < |r| ==>
      && r[i].value == SumOf(ts, Keep(AcceptedIn(r[i].currency), AmountOf))
      && r[i].numTx == CountOf(ts, AcceptedIn(r[i].currency))
      && r[i].color == CurrencyColor(r[i].currency)
    ensures TotalTx(r) == CountOf(ts, Accepted)
    ensures TotalValue(r) == SumOf(ts, Keep(Accepted, AmountOf))
  {
    var accepted := Filter(ts, Accepted);
    var b := Group(accepted, CurrencyOf, AmountOf);
    forall i | 0 <= i < |b|
      ensures b[i].total == SumOf(ts, Keep(AcceptedIn(b[i].key), AmountOf))
      ensures b[i].count == CountOf(ts, AcceptedIn(b[i].key))
    {
      BucketIsCurrencyTotal(ts, b[i].key);
    }
    CountOfFilter(ts, Accepted);
    SumOfFilter(ts, Accepted, AmountOf);
    Charts(b)
  }

  /** A currency gets a bar exactly when some accepted transaction has it. */
  lemma CurrencyHasBarIff(ts: seq<Transaction>, c: string)
    ensures (exists i :: 0 <= i < |Aggregate(ts)| && Aggregate(ts)[i].currency == c)
        <==> (exists j :: 0 <= j < |ts| && Accepted(ts[j]) && CurrencyOf(ts[j]) == c)
  {
    if exists j :: 0 <= j < |ts| && Accepted(ts[j]) && CurrencyOf(ts[j]) == c {
      var j :| 0 <= j < |ts| && Accepted(ts[j]) && CurrencyOf(ts[j]) == c;
      AcceptedCurrencyHasBar(ts, j);
    }
    if exists i :: 0 <= i < |Aggregate(ts)| && Aggregate(ts)[i].currency == c {
      var i :| 0 <= i < |Aggregate(ts)| && Aggregate(ts)[i].currency == c;
      BarHasAcceptedCurrency(ts, i);
    }
  }

  /** The currency of an accepted transaction has a bar. */
  lemma AcceptedCurrencyHasBar(ts: seq<Transaction>, j: int)
    requires 0 <= j < |ts| && Accepted(ts[j])
    ensures exists i :: 0 <= i < |Aggregate(ts)| && Aggregate(ts)[i].currency == CurrencyOf(ts[j])
  {
    var accepted := Filter(ts, Accepted);
    var c := CurrencyOf(ts[j]);
    assert ts[j] in accepted;
    var k :| 0 <= k < |accepted| && accepted[k] == ts[j];
    KeysComplete(accepted, CurrencyOf, c);
    var ks := Keys(accepted, CurrencyOf);
    var i :| 0 <= i < |ks| && ks[i] == c;
    assert Aggregate(ts)[i].currency == c;
  }

  /** Every bar's currency is that of an accepted transaction. */
  lemma BarHasAcceptedCurrency(ts: seq<Transaction>, i: int)
    requires 0 <= i < |Aggregate(ts)|
    ensures exists j :: 0 <= j < |ts| && Accepted(ts[j]) && CurrencyOf(ts[j]) == Aggregate(ts)[i].currency
  {
    var accepted := Filter(ts, Accepted);
    var c := Aggregate(ts)[i].currency;
    assert c == Keys(accepted, CurrencyOf)[i];
    KeysComplete(accepted, CurrencyOf, c);
    var k :| 0 <= k < |accepted| && CurrencyOf(accepted[k]) == c;
    assert accepted[k] in ts;
    var j :| 0 <= j < |ts| && ts[j] == accepted[k];
  }

  /** Reordering the transactions changes no currency's value or count. */
  lemma CurrencyTotalsOrderIndependent(a: seq<Transaction>, b: seq<Transaction>, c: string)
    requires multiset(a) == multiset(b)
    ensures SumOf(a, Keep(AcceptedIn(c), AmountOf)) == SumOf(b, Keep(AcceptedIn(c), AmountOf))
    ensures CountOf(a, AcceptedIn(c)) == CountOf(b, AcceptedIn(c))
  {
    SumOfPermutation(a, b, Keep(AcceptedIn(c), AmountOf));
    CountOfPermutation(a, b, AcceptedIn(c));
  }
}
