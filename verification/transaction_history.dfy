/** The consolidated-balance panel of
    `app/router/dashboard/components/TransactionHistory.tsx`: rate table,
    account ordering, conversion to USD, total, goal, progress and donut. */
module TransactionHistory {
  import opened Wrappers
  import opened Numeric
  import opened Sums
  import opened Sorting
  import opened RateTables
  import opened Progress
  import opened AuthService

  /** The rate table of `fetchExchangeRates`: each listed currency maps to
      its parsed rate (0 when it does not parse), and "USD" is forced to 1. */
  function BuildRates(list: seq<ExchangeRate>): (m: map<string, real>)
    ensures forall k :: k in m <==> k == "USD" || Listed(list, (r: ExchangeRate) => r.currency, k)
    ensures m["USD"] == 1.0
    ensures forall i :: LastOfKey(list, (r: ExchangeRate) => r.currency, i) && list[i].currency != "USD" ==>
      list[i].currency in m && m[list[i].currency] == OrZero(list[i].rateToUSD)
  {
    LastWins(list, (r: ExchangeRate) => r.currency, (r: ExchangeRate) => OrZero(r.rateToUSD))["USD" := 1.0]
  }

  /** `convertToUSD`: an amount that does not parse, or a currency the
      table does not list, converts to 0. */
  function ConvertToUSD(rates: map<string, real>, amount: Option<real>, currencyType: string): (r: real)
    ensures amount.None? ==> r == 0.0
    ensures currencyType !in rates ==> r == 0.0
    ensures amount.Some? && currencyType in rates ==> r == amount.value * rates[currencyType]
  {
    match amount
    case None => 0.0
    case Some(value) =>
      var rate := if currencyType in rates then rates[currencyType] else 0.0;
      value * rate
  }

  /** An amount in USD converts to itself under any built table. */
  lemma UsdIsIdentity(list: seq<ExchangeRate>, amount: real)
    ensures ConvertToUSD(BuildRates(list), Some(amount), "USD") == amount
  {
  }

  /** `acc => convertToUSD(acc.balance, acc.type)` */
  function UsdValue(rates: map<string, real>): Account -> real {
    (a: Account) => ConvertToUSD(rates, a.balance, a.accountType)
  }

  /** The consolidated total: the sum of every account's USD value. */
  function TotalUSD(rates: map<string, real>, accounts: seq<Account>): real {
    SumOf(accounts, UsdValue(rates))
  }

  /** The total of no accounts is 0. */
  lemma TotalOfNothing(rates: map<string, real>)
    ensures TotalUSD(rates, []) == 0.0
  {
  }

  /** The total does not depend on the order of the accounts. */
  lemma TotalOrderIndependent(rates: map<string, real>, a: seq<Account>, b: seq<Account>)
    requires multiset(a) == multiset(b)
    ensures TotalUSD(rates, a) == TotalUSD(rates, b)
  {
    SumOfPermutation(a, b, UsdValue(rates));
  }

  /** Accounts in a currency without a rate add nothing to the total. */
  lemma {:induction false} UnratedAccountsAddNothing(rates: map<string, real>, accounts: seq<Account>)
    requires forall i :: 0 <= i < |accounts| ==> accounts[i].accountType !in rates
    ensures TotalUSD(rates, accounts) == 0.0
    decreases |accounts|
  {
    if |accounts| > 0 {
      UnratedAccountsAddNothing(rates, accounts[..|accounts| - 1]);
    }
  }

  /** The account list ordered by `createAt`, newest first. */
  function NewestFirst(accounts: seq<Account>): (r: seq<Account>)
    ensures forall i, j :: 0 <= i < j < |r| ==> r[i].createAt >= r[j].createAt
    ensures multiset(r) == multiset(accounts)
  {
    var r := SortBy(accounts, (a: Account) => -a.createAt);
    assert forall i, j :: 0 <= i < j < |r| ==> -r[i].createAt <= -r[j].createAt;
    r
  }

  /** What the `useMemo` block returns. `progress` is `None` where the
      source computes NaN. */
  datatype Summary = Summary(total: real, goal: real, progress: Option<int>, donut: seq<Slice>)

  /** The `useMemo` computation: with no rates and loading finished,
      everything is zero; otherwise the goal is 120% of the total, so the
      progress is 83 for any non-zero total and NaN (0 / 0) for a zero one. */
  method Summarize(rates: map<string, real>, accounts: seq<Account>, loading: bool) returns (s: Summary)
    ensures |rates| == 0 && !loading ==>
      s == Summary(0.0, 0.0, Some(0), [Slice("Progreso", Some(0), Grey), Slice("Restante", Some(100), Grey)])
    ensures !(|rates| == 0 && !loading) ==>
      && s.total == TotalUSD(rates, accounts)
      && s.goal == 1.2 * s.total
      && (s.total != 0.0 ==> s.progress == Some(83))
      && (s.total == 0.0 ==> s.progress.None?)
      && s.donut == Donut(s.progress)
  {
    if |rates| == 0 && !loading {
      return Summary(0.0, 0.0, Some(0), [Slice("Progreso", Some(0), Grey), Slice("Restante", Some(100), Grey)]);
    }
    var total := 0.0;
    var i := 0;
    while i < |accounts|
      invariant 0 <= i <= |accounts|
      invariant total == SumOf(accounts[..i], UsdValue(rates))
    {
      assert accounts[..i + 1][..i] == accounts[..i];
      total := total + ConvertToUSD(rates, accounts[i].balance, accounts[i].accountType);
      i := i + 1;
    }
    assert accounts[..i] == accounts;
    var goal := total * 1.2;
    var progress: Option<int>;
    if goal == 0.0 {
      progress := None;
    } else {
      GoalRatio(total);
      progress := Some(CalculateProgress(total, goal));
    }
    s := Summary(total, goal, progress, Donut(progress));
  }

  /** A goal of 120% of a non-zero total is 83% reached. */
  lemma GoalRatio(t: real)
    requires t != 0.0
    ensures CalculateProgress(t, t * 1.2) == 83
  {
    var q := t / (t * 1.2);
    assert q * (t * 1.2) == t;
    assert (q * 1.2 - 1.0) * t == 0.0;
    assert q * 1.2 == 1.0;
    assert q * 100.0 == 250.0 / 3.0;
    RoundUnique(250.0 / 3.0, 83);
  }

  /** The donut slices of a non-zero total: 83 and 17, which sum to 100. */
  lemma NonZeroDonut()
    ensures Donut(Some(83))[0].value == Some(83) && Donut(Some(83))[1].value == Some(17)
  {
  }
}
