/** The per-type balance totals of
    `app/router/dashboard/components/AccountOverview.tsx`: one entry per
    account type (compared exactly, case included), in order of first
    appearance, holding the sum of that type's balances. */
module AccountOverview {
  import opened Wrappers
  import opened Numeric
  import opened Sums
  import opened Grouping
  import opened AuthService

  function AccountType(a: Account): string {
    a.accountType
  }

  /** `parseFloat(account.balance) || 0` */
  function ParsedBalance(a: Account): real {
    OrZero(a.balance)
  }

  /** `groupedBalances`: the `reduce` that adds every balance to the
      slot of its account type. */
  function GroupedBalances(accounts: seq<Account>): (r: seq<Bucket<string>>)
    ensures UniqueKeys(r)
    ensures forall i :: 0 <= i < |r| ==>
      r[i].total == SumWhere(accounts, AccountType, ParsedBalance, r[i].key)
    ensures forall t :: HasKey(r, t) <==> exists i :: 0 <= i < |accounts| && accounts[i].accountType == t
    ensures |accounts| == 0 <==> |r| == 0
    ensures SumTotals(r) == SumOf(accounts, ParsedBalance)
  {
    var r := Group(accounts, AccountType, ParsedBalance);
    forall t ensures HasKey(r, t) <==> exists i :: 0 <= i < |accounts| && accounts[i].accountType == t {
      KeysComplete(accounts, AccountType, t);
      if t in Keys(accounts, AccountType) {
        var j :| 0 <= j < |r| && Keys(accounts, AccountType)[j] == t;
        assert r[j].key == t;
      }
    }
    assert |accounts| > 0 ==> HasKey(r, accounts[0].accountType);
    r
  }

  /** `groupedBalances[type]` for any type, listed or not (absent reads
      as 0): the sum of the balances of the accounts of exactly that type. */
  lemma LookupIsTypeSum(accounts: seq<Account>, t: string)
    ensures TotalFor(GroupedBalances(accounts), t)
      == SumOf(accounts, Keep((a: Account) => a.accountType == t, ParsedBalance))
  {
    GroupTotalFor(accounts, AccountType, ParsedBalance, t);
    forall i | 0 <= i < |accounts|
      ensures Keep(KeyIs(AccountType, t), ParsedBalance)(accounts[i])
        == Keep((a: Account) => a.accountType == t, ParsedBalance)(accounts[i])
    {
      var a := accounts[i];
      assert AccountType(a) == a.accountType;
      assert KeyIs(AccountType, t)(a) == (AccountType(a) == t);
    }
    SumOfCongruent(accounts, Keep(KeyIs(AccountType, t), ParsedBalance),
      Keep((a: Account) => a.accountType == t, ParsedBalance));
  }

  /** Reordering the accounts changes no type's total. */
  lemma LookupOrderIndependent(a: seq<Account>, b: seq<Account>, t: string)
    requires multiset(a) == multiset(b)
    ensures TotalFor(GroupedBalances(a), t) == TotalFor(GroupedBalances(b), t)
  {
    GroupTotalFor(a, AccountType, ParsedBalance, t);
    GroupTotalFor(b, AccountType, ParsedBalance, t);
    SumOfPermutation(a, b, Keep(KeyIs(AccountType, t), ParsedBalance));
  }

  /** An account whose balance does not parse adds nothing to its group. */
  lemma UnparseableBalanceAddsNothing(accounts: seq<Account>, a: Account, t: string)
    requires a.balance.None?
    ensures TotalFor(GroupedBalances(accounts + [a]), t) == TotalFor(GroupedBalances(accounts), t)
  {
    GroupTotalFor(accounts + [a], AccountType, ParsedBalance, t);
    GroupTotalFor(accounts, AccountType, ParsedBalance, t);
    assert (accounts + [a])[..|accounts|] == accounts;
    WhereStep(accounts + [a], AccountType, ParsedBalance, t);
  }
}
