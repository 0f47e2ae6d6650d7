/** The card total of
    `app/router/dashboard/accounts/components/AccountSummary.tsx`: rates are
    keyed by upper-cased currency code, looked up by the upper-cased account
    type, and a type without a rate counts at parity (rate 1). */
module AccountSummary {
  import opened Wrappers
  import opened Numeric
  import opened Strings
  import opened Sums
  import opened RateTables
  import opened AuthService

  /** `r.currency.toUpperCase()` */
  function UpperCurrency(r: ExchangeRate): string {
    Upper(r.currency)
  }

  /** `fetchRates`: no fallback here, so a rate that does not parse is
      stored as NaN (`None`). */
  function BuildRates(list: seq<ExchangeRate>): (m: map<string, Option<real>>)
    ensures forall k :: k in m ==> Upper(k) == k
    ensures forall k :: k in m <==> Listed(list, UpperCurrency, k)
    ensures forall i :: LastOfKey(list, UpperCurrency, i) ==>
      Upper(list[i].currency) in m && m[Upper(list[i].currency)] == list[i].rateToUSD
  {
    var m := LastWins(list, UpperCurrency, (r: ExchangeRate) => r.rateToUSD);
    forall k | k in m ensures Upper(k) == k {
      var i :| 0 <= i < |list| && UpperCurrency(list[i]) == k;
      UpperIdempotent(list[i].currency);
    }
    m
  }

  /** `exchangeRates[card.account.type.toUpperCase()] ?? 1` */
  function CardRate(rates: map<string, Option<real>>, accountType: string): (r: Option<real>)
    ensures Upper(accountType) !in rates ==> r == Some(1.0)
    ensures Upper(accountType) in rates ==> r == rates[Upper(accountType)]
  {
    var k := Upper(accountType);
    if k in rates then rates[k] else Some(1.0)
  }

  /** A card type matches a listed currency whatever the case of either:
      the card gets the rate of the last entry for that code. */
  lemma LookupIgnoresCase(list: seq<ExchangeRate>, i: int, accountType: string)
    requires LastOfKey(list, UpperCurrency, i)
    requires Upper(accountType) == Upper(list[i].currency)
    ensures CardRate(BuildRates(list), accountType) == list[i].rateToUSD
  {
  }

  /** The card's balance in USD; `None` when its rate is NaN. An
      unparseable balance counts as 0. */
  function CardUSD(rates: map<string, Option<real>>, c: Card): (r: Option<real>)
    ensures CardRate(rates, c.account.accountType).None? <==> r.None?
    ensures r.Some? ==> r.value == OrZero(c.balance) * CardRate(rates, c.account.accountType).value
  {
    match CardRate(rates, c.account.accountType)
    case None => None
    case Some(rate) => Some(OrZero(c.balance) * rate)
  }

  /** Every card's rate is a number. */
  predicate AllRated(rates: map<string, Option<real>>, cards: seq<Card>) {
    forall i :: 0 <= i < |cards| ==> CardRate(rates, cards[i].account.accountType).Some?
  }

  /** `balance * rate`, for cards whose rate is a number. */
  function RatedValue(rates: map<string, Option<real>>): Card -> real {
    (c: Card) => OrZero(c.balance) * CardRate(rates, c.account.accountType).GetOr(0.0)
  }

  /** `totalBalanceUSD`: the `reduce` over the cards. NaN (`None`) as soon
      as one card's rate is NaN; otherwise the sum of balance times rate. */
  function TotalBalanceUSD(rates: map<string, Option<real>>, cards: seq<Card>): (r: Option<real>)
    ensures r.Some? <==> AllRated(rates, cards)
    ensures r.Some? ==> r.value == SumOf(cards, RatedValue(rates))
    decreases |cards|
  {
    if |cards| == 0 then Some(0.0)
    else
      var n := |cards| - 1;
      var prev := TotalBalanceUSD(rates, cards[..n]);
      assert AllRated(rates, cards) <==> AllRated(rates, cards[..n]) && CardRate(rates, cards[n].account.accountType).Some? by {
        if AllRated(rates, cards[..n]) && CardRate(rates, cards[n].account.accountType).Some? {
          forall i | 0 <= i < |cards| ensures CardRate(rates, cards[i].account.accountType).Some? {
            if i < n {
              assert cards[i] == cards[..n][i];
            }
          }
        }
      }
      match (prev, CardUSD(rates, cards[n]))
      case (Some(sum), Some(v)) => Some(sum + v)
      case _ => None
  }

  /** No cards total 0. */
  lemma TotalOfNoCards(rates: map<string, Option<real>>)
    ensures TotalBalanceUSD(rates, []) == Some(0.0)
  {
  }

  /** The total does not depend on the order of the cards. */
  lemma TotalOrderIndependent(rates: map<string, Option<real>>, a: seq<Card>, b: seq<Card>)
    requires multiset(a) == multiset(b)
    ensures TotalBalanceUSD(rates, a) == TotalBalanceUSD(rates, b)
  {
    assert AllRated(rates, a) <==> AllRated(rates, b) by {
      if AllRated(rates, a) {
        forall i | 0 <= i < |b| ensures CardRate(rates, b[i].account.accountType).Some? {
          assert b[i] in multiset(a);
          var j :| 0 <= j < |a| && a[j] == b[i];
        }
      }
      if AllRated(rates, b) {
        forall i | 0 <= i < |a| ensures CardRate(rates, a[i].account.accountType).Some? {
          assert a[i] in multiset(b);
          var j :| 0 <= j < |b| && b[j] == a[i];
        }
      }
    }
    SumOfPermutation(a, b, RatedValue(rates));
  }

  /** Cards whose types have no rate count at parity: the total is the plain
      sum of their balances. */
  lemma {:induction false} UnratedCardsAtParity(rates: map<string, Option<real>>, cards: seq<Card>)
    requires forall i :: 0 <= i < |cards| ==> Upper(cards[i].account.accountType) !in rates
    ensures TotalBalanceUSD(rates, cards) == Some(SumOf(cards, (c: Card) => OrZero(c.balance)))
    decreases |cards|
  {
    if |cards| > 0 {
      UnratedCardsAtParity(rates, cards[..|cards| - 1]);
    }
  }

  /** One listed rate that does not parse makes the total NaN for every
      card list that contains a card of that currency. */
  lemma UnparseableRatePoisonsTotal(list: seq<ExchangeRate>, i: int, cards: seq<Card>, j: int)
    requires LastOfKey(list, UpperCurrency, i) && list[i].rateToUSD.None?
    requires 0 <= j < |cards| && Upper(cards[j].account.accountType) == Upper(list[i].currency)
    ensures TotalBalanceUSD(BuildRates(list), cards).None?
  {
    LookupIgnoresCase(list, i, cards[j].account.accountType);
  }
}
