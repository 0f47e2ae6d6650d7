/** `processTransactions` of
    `app/router/dashboard/components/DebtAndWithdrawalTracker.tsx`: income
    and expense totals, per-category pie slices and the income/expense
    balance pie. */
module DebtTracker {
  import opened Wrappers
  import opened Numeric
  import opened Sums
  import opened Grouping
  import opened AuthService

  /** The component's own transaction record; `amount` is the result of
      `parseFloat(String(t.amount))`. */
  datatype Entry = Entry(amount: Option<real>, category: string, transactionType: TransactionType)

  /** One pie slice. */
  datatype Slice = Slice(name: string, value: real, color: string)

  datatype Report = Report(
    totalIncome: real, totalExpense: real, netBalance: real,
    incomeData: seq<Slice>, expenseData: seq<Slice>, balanceData: seq<Slice>)

  const CategoryColors: seq<string> := [
    "#6366F1", "#06B6D4", "#F59E0B", "#EF4444", "#10B981",
    "#8B5CF6", "#EC4899", "#3B82F6", "#14B8A6", "#F97316"]
  const Positive := "#16A34A"
  const Negative := "#DC2626"

  /** `parseFloat(String(t.amount)) || 0` */
  function Amount(t: Entry): real {
    OrZero(t.amount)
  }

  predicate IsDeposit(t: Entry) {
    t.transactionType == Deposit
  }

  function Category(t: Entry): string {
    t.category
  }

  function SumValues(d: seq<Slice>): real {
    if |d| == 0 then 0.0 else d[0].value + SumValues(d[1..])
  }

  /** `Object.entries(totals).map(([name, value], i) => …)` with the
      palette started `offset` places in; `i` is the index of `b[0]`. */
  function Colored(b: seq<Bucket<string>>, offset: nat, i: nat): (r: seq<Slice>)
    ensures |r| == |b|
    ensures forall k :: 0 <= k < |b| ==>
      r[k] == Slice(b[k].key, b[k].total, CategoryColors[(i + k + offset) % |CategoryColors|])
    ensures SumValues(r) == SumTotals(b)
  {
    if |b| == 0 then []
    else [Slice(b[0].key, b[0].total, CategoryColors[(i + offset) % |CategoryColors|])] + Colored(b[1..], offset, i + 1)
  }

  /** Each bucket of a side's grouping holds that side's total for its category. */
  lemma BucketsAreCategoryTotals(data: seq<Entry>, side: Entry -> bool)
    ensures forall k :: 0 <= k < |Group(Filter(data, side), Category, Amount)| ==>
      Group(Filter(data, side), Category, Amount)[k].total
        == SumOf(data, Keep(Both(side, KeyIs(Category, Group(Filter(data, side), Category, Amount)[k].key)), Amount))
    ensures SumTotals(Group(Filter(data, side), Category, Amount)) == SumOf(data, Keep(side, Amount))
  {
    var b := Group(Filter(data, side), Category, Amount);
    forall k | 0 <= k < |b|
      ensures b[k].total == SumOf(data, Keep(Both(side, KeyIs(Category, b[k].key)), Amount))
    {
      SumOfFilterWhere(data, side, KeyIs(Category, b[k].key), Amount);
    }
    SumOfFilter(data, side, Amount);
  }

  /** The slices of one side: one per category of that side's
      transactions, in order of first appearance, each holding the side's
      total for its category and coloured from palette entry
      (i + offset) mod 10. */
  function SideSlices(data: seq<Entry>, side: Entry -> bool, offset: nat): (r: seq<Slice>)
    ensures |r| == |Keys(Filter(data, side), Category)|
    ensures forall i :: 0 <= i < |r| ==> r[i].name == Keys(Filter(data, side), Category)[i]
    ensures forall i :: 0 <= i < |r| ==>
      && r[i].value == SumOf(data, Keep(Both(side, KeyIs(Category, r[i].name)), Amount))
      && r[i].color == CategoryColors[(i + offset) % 10]
    ensures forall i, j :: 0 <= i < j < |r| ==> r[i].name != r[j].name
    ensures SumValues(r) == SumOf(data, Keep(side, Amount))
  {
    BucketsAreCategoryTotals(data, side);
    Colored(Group(Filter(data, side), Category, Amount), offset, 0)
  }

  /** `processTransactions`. Deposits add to the income total and to their
      category's income slice; every other transaction to the expense side.
      Slices appear in order of each category's first transaction, the
      i-th income slice coloured from palette entry i mod 10 and the i-th
      expense slice from entry (i + 5) mod 10. */
  function ProcessTransactions(data: seq<Entry>): (r: Report)
    ensures r.totalIncome == SumOf(data, Keep(IsDeposit, Amount))
    ensures r.totalExpense == SumOf(data, Keep(Not(IsDeposit), Amount))
    ensures r.netBalance == r.totalIncome - r.totalExpense
    ensures SumValues(r.incomeData) == r.totalIncome
    ensures SumValues(r.expenseData) == r.totalExpense
    ensures forall i, j :: 0 <= i < j < |r.incomeData| ==> r.incomeData[i].name != r.incomeData[j].name
    ensures forall i, j :: 0 <= i < j < |r.expenseData| ==> r.expenseData[i].name != r.expenseData[j].name
    ensures forall i :: 0 <= i < |r.incomeData| ==>
      && r.incomeData[i].value == SumOf(data, Keep(Both(IsDeposit, KeyIs(Category, r.incomeData[i].name)), Amount))
      && r.incomeData[i].color == CategoryColors[i % 10]
    ensures forall i :: 0 <= i < |r.expenseData| ==>
      && r.expenseData[i].value == SumOf(data, Keep(Both(Not(IsDeposit), KeyIs(Category, r.expenseData[i].name)), Amount))
      && r.expenseData[i].color == CategoryColors[(i + 5) % 10]
    ensures r.balanceData == [Slice("Ingresos", r.totalIncome, Positive), Slice("Gastos", r.totalExpense, Negative)]
    // one slice per category of each side, in order of first appearance
    ensures |r.incomeData| == |Keys(Filter(data, IsDeposit), Category)|
    ensures forall i :: 0 <= i < |r.incomeData| ==> r.incomeData[i].name == Keys(Filter(data, IsDeposit), Category)[i]
    ensures |r.expenseData| == |Keys(Filter(data, Not(IsDeposit)), Category)|
    ensures forall i :: 0 <= i < |r.expenseData| ==> r.expenseData[i].name == Keys(Filter(data, Not(IsDeposit)), Category)[i]
  {
    var totalIncome := SumOf(data, Keep(IsDeposit, Amount));
    var totalExpense := SumOf(data, Keep(Not(IsDeposit), Amount));
    Report(totalIncome, totalExpense, totalIncome - totalExpense,
      SideSlices(data, IsDeposit, 0), SideSlices(data, Not(IsDeposit), 5),
      [Slice("Ingresos", totalIncome, Positive), Slice("Gastos", totalExpense, Negative)])
  }

  /** A category is among a side's keys exactly when some transaction of
      that side carries it. */
  lemma CategoryOnSide(data: seq<Entry>, side: Entry -> bool, c: string)
    ensures c in Keys(Filter(data, side), Category)
      <==> exists j :: 0 <= j < |data| && side(data[j]) && data[j].category == c
  {
    var f := Filter(data, side);
    KeysComplete(f, Category, c);
    if exists j :: 0 <= j < |data| && side(data[j]) && data[j].category == c {
      var j :| 0 <= j < |data| && side(data[j]) && data[j].category == c;
      assert data[j] in f;
      var i :| 0 <= i < |f| && f[i] == data[j];
      assert Category(f[i]) == c;
    }
    if c in Keys(f, Category) {
      var i :| 0 <= i < |f| && Category(f[i]) == c;
      assert f[i] in f;
      var j :| 0 <= j < |data| && data[j] == f[i];
    }
  }

  /** A side has a slice for a category exactly when one of its
      transactions carries that category. */
  lemma SideSliceIff(data: seq<Entry>, side: Entry -> bool, offset: nat, c: string)
    ensures (exists i :: 0 <= i < |SideSlices(data, side, offset)| && SideSlices(data, side, offset)[i].name == c)
      <==> (exists j :: 0 <= j < |data| && side(data[j]) && data[j].category == c)
  {
    var r := SideSlices(data, side, offset);
    var k := Keys(Filter(data, side), Category);
    CategoryOnSide(data, side, c);
    if c in k {
      var i :| 0 <= i < |k| && k[i] == c;
      assert r[i].name == c;
    }
  }

  /** A category has an income slice exactly when some deposit carries it. */
  lemma IncomeSliceIff(data: seq<Entry>, c: string)
    ensures (exists i :: 0 <= i < |ProcessTransactions(data).incomeData| && ProcessTransactions(data).incomeData[i].name == c)
      <==> (exists j :: 0 <= j < |data| && IsDeposit(data[j]) && data[j].category == c)
  {
    assert ProcessTransactions(data).incomeData == SideSlices(data, IsDeposit, 0);
    SideSliceIff(data, IsDeposit, 0, c);
  }

  /** A category has an expense slice exactly when some transaction that is
      not a deposit carries it. */
  lemma ExpenseSliceIff(data: seq<Entry>, c: string)
    ensures (exists i :: 0 <= i < |ProcessTransactions(data).expenseData| && ProcessTransactions(data).expenseData[i].name == c)
      <==> (exists j :: 0 <= j < |data| && !IsDeposit(data[j]) && data[j].category == c)
  {
    assert ProcessTransactions(data).expenseData == SideSlices(data, Not(IsDeposit), 5);
    SideSliceIff(data, Not(IsDeposit), 5, c);
    forall j | 0 <= j < |data|
      ensures Not(IsDeposit)(data[j]) == !IsDeposit(data[j])
    {
    }
  }

  /** Every transaction lands on exactly one side: income and expense
      together are the whole volume. */
  lemma IncomeAndExpensePartition(data: seq<Entry>)
    ensures SumOf(data, Keep(IsDeposit, Amount)) + SumOf(data, Keep(Not(IsDeposit), Amount)) == SumOf(data, Amount)
  {
    SumOfSplit(data, IsDeposit, Amount);
  }

  /** A deposit counts for its amount, anything else against it. */
  function Signed(t: Entry): real {
    if IsDeposit(t) then Amount(t) else -Amount(t)
  }

  /** The signed sum is the deposits' sum minus the rest's. */
  lemma {:induction false} SignedSumSplit(data: seq<Entry>)
    ensures SumOf(data, Signed) == SumOf(data, Keep(IsDeposit, Amount)) - SumOf(data, Keep(Not(IsDeposit), Amount))
    decreases |data|
  {
    if |data| > 0 {
      SignedSumSplit(data[..|data| - 1]);
    }
  }

  /** The net balance is the signed sum of the transactions. */
  lemma NetIsSignedSum(data: seq<Entry>)
    ensures ProcessTransactions(data).netBalance == SumOf(data, Signed)
  {
    SignedSumSplit(data);
  }

  /** Reordering the transactions changes neither total. */
  lemma TotalsOrderIndependent(a: seq<Entry>, b: seq<Entry>)
    requires multiset(a) == multiset(b)
    ensures ProcessTransactions(a).totalIncome == ProcessTransactions(b).totalIncome
    ensures ProcessTransactions(a).totalExpense == ProcessTransactions(b).totalExpense
  {
    SumOfPermutation(a, b, Keep(IsDeposit, Amount));
    SumOfPermutation(a, b, Keep(Not(IsDeposit), Amount));
  }
}
