# Finance dashboard — a Dafny model

This project models the client-side logic of a personal-finance dashboard
written in TypeScript and React: accounts, cards and transactions fetched
from a REST back end, exchange rates to US dollars, and the figures the
dashboard derives from them. It covers:

- the consolidated balance in USD and the goal progress with its donut chart;
- the per-currency volume bars, the daily multi-currency trend and the
  growth text;
- the income/expense breakdown by category;
- the card grid with deletion;
- the two exchange-rate editors (local and server-backed);
- the new-card and income forms;
- the session helpers that read and write browser storage.

The model is written in Dafny's own terms:

- **Money** is an exact `real`. JavaScript's `parseFloat` becomes an
  abstract parser returning `Option<real>`, where `None` stands for NaN.
  `parseFloat(x) || 0` is `Numeric.OrZero`.
- **Accumulator objects.** An object built as `acc[k] = (acc[k] || 0) + v`
  is an insertion-ordered list of buckets, built by `Grouping.Group`.
- **React handlers** are pure functions. Each takes the component's state,
  plus the outcomes of its remote calls as parameters, and returns the new
  state and the request it sent. Browser storage is a `map<string, string>`.

Modules follow the source files:

| module | source file |
|---|---|
| `TransactionHistory` | `components/TransactionHistory.tsx` |
| `AccountSummary` | `accounts/components/AccountSummary.tsx` |
| `AccountOverview` | `components/AccountOverview.tsx` |
| `CurrencyDistribution` | `analyti/components/CurrencyDistribution.tsx` |
| `AccountTrends` | `analyti/components/AccountTrends.tsx` |
| `AccountMetrics` | `analyti/components/AccountMetrics.tsx` |
| `DebtTracker` | `components/DebtAndWithdrawalTracker.tsx` |
| `AccountCards` | `accounts/components/AccountCards.tsx` |
| `RateEditor` | `accounts/components/ExchangeRateForm.tsx` |
| `RateAdmin` | `exchangerate/components/componet.tsx` |
| `CardForm` | `accounts/card/page.tsx` |
| `IncomeForm` | `accounts/income/components/IncomeForm.tsx` |
| `AccountList` | `accounts/components/AccountList.tsx` |
| `CurrencyAnalytics` | `components/CurrencyAnalytics.tsx` |
| `Sidebar` | `components/Sidebar.tsx` |
| `AuthService` | `lib/auth-service.ts` |

All of these paths are under `app/router/dashboard/`, except the last.

Shared modules:

- `Wrappers`: `Option` and `Result`.
- `Numeric`: `OrZero`, `Math.round`, absolute value, min and max.
- `Strings`: `trim`, `toUpperCase`, `slice(-n)`, `charAt(0)` and number
  printing.
- `Sums`: sums and counts over sequences.
- `Grouping`: the keyed `reduce`.
- `Sorting`: a stable sort by key.
- `RateTables`: `forEach` into an object, where the last entry for a key
  wins.
- `Progress`: progress percentage, colour and donut.
- `Http`: what a failed request carries.

## Model

| member | source | states |
|---|---|---|
| RateTables.LastWins | app/router/dashboard/components/TransactionHistory.tsx:29-34 | writing a list into an object key by key yields exactly the listed keys, each holding the value of its last entry |
| TransactionHistory.BuildRates | app/router/dashboard/components/TransactionHistory.tsx:26-35 | the rate table holds exactly "USD" and the listed codes; "USD" is 1 whatever the server sent; every other code holds its last listed rate, 0 when it does not parse |
| TransactionHistory.ConvertToUSD | app/router/dashboard/components/TransactionHistory.tsx:68-84 | an unparseable amount or an unknown currency converts to 0; otherwise the amount times the currency's rate |
| TransactionHistory.UsdIsIdentity | app/router/dashboard/components/TransactionHistory.tsx:34 | whatever the server's list, a USD amount converts to itself |
| TransactionHistory.TotalOfNothing | app/router/dashboard/components/TransactionHistory.tsx:102-105 | the consolidated total of no accounts is 0 |
| TransactionHistory.TotalOrderIndependent | app/router/dashboard/components/TransactionHistory.tsx:102-105 | the consolidated total does not depend on the order of the accounts |
| TransactionHistory.UnratedAccountsAddNothing | app/router/dashboard/components/TransactionHistory.tsx:77 | accounts whose currency has no rate contribute nothing to the total |
| TransactionHistory.NewestFirst | app/router/dashboard/components/TransactionHistory.tsx:45-48 | the account list is a permutation of the fetched one, ordered by creation time, newest first |
| TransactionHistory.Summarize | app/router/dashboard/components/TransactionHistory.tsx:86-124 | with no rates after loading, all zeros and a grey donut; otherwise the total is the sum of USD values, the goal is 1.2 times it, progress is 83 for any non-zero total and NaN for a zero total, and the donut follows the progress |
| TransactionHistory.GoalRatio | app/router/dashboard/components/TransactionHistory.tsx:107-108 | measured against a goal of 1.2 times itself, any non-zero total shows 83 percent |
| TransactionHistory.NonZeroDonut | app/router/dashboard/components/TransactionHistory.tsx:115-121 | the donut for 83 percent shows 83 and 17 |
| Progress.CalculateProgress | app/router/dashboard/analyti/components/AccountMetrics.tsx:59-61 | the percentage is at most 100; below 100 it is the ratio times 100 rounded half-up; it is 100 exactly when the ratio times 100 is at least 99.5, so at or past the goal it is 100; a negative current value gives a non-positive percentage |
| Progress.ProgressColor | app/router/dashboard/analyti/components/AccountMetrics.tsx:64 | green exactly when the percentage is at least 100, blue otherwise; since the percentage is capped at 100 and rounded, that happens from 99.5% of the goal on |
| Progress.Donut | app/router/dashboard/analyti/components/AccountMetrics.tsx:65-68 | two slices; the remainder is `max(0, 100 - p)`, so the two add up to 100 for a progress between 0 and 100; past 100 the remainder is 0; NaN progress gives NaN slices |
| Numeric.Round | app/router/dashboard/analyti/components/AccountMetrics.tsx:60 | `Math.round` yields the integer within half a unit below and strictly less than half a unit above |
| Numeric.RoundUnique | app/router/dashboard/analyti/components/AccountMetrics.tsx:60 | that integer is unique |
| AccountMetrics.TotalByCurrency | app/router/dashboard/analyti/components/AccountMetrics.tsx:49-56 | the converted total equals the dollar sum plus the peso sum over 490 plus the euro sum over 0.86 |
| AccountMetrics.TotalOrderIndependent | app/router/dashboard/analyti/components/AccountMetrics.tsx:49-56 | the total does not depend on the order of the transactions |
| AccountMetrics.TotalNonNegative | app/router/dashboard/analyti/components/AccountMetrics.tsx:49-56 | non-negative amounts give a non-negative total |
| AccountMetrics.ComputeMetrics | app/router/dashboard/analyti/components/AccountMetrics.tsx:49-68 | the total is the converted sum; progress is at most 100 and is 100 exactly when the total is at least 49750 (99.5% rounds up), so in particular once the 50000 goal is met; the colour is green exactly at 100 and blue below, where progress is the rounded percentage; the donut shows progress and its remainder to 100 |
| AccountMetrics.SampleProgress | app/router/dashboard/analyti/components/AccountMetrics.tsx:30-41 | the built-in transactions reach 3 percent of the goal, shown in blue |
| AccountSummary.BuildRates | app/router/dashboard/accounts/components/AccountSummary.tsx:27-32 | keys are upper-cased; exactly the upper-cased listed codes are keys; each holds the parse of its last listed rate, NaN kept as NaN |
| AccountSummary.CardRate | app/router/dashboard/accounts/components/AccountSummary.tsx:79-83 | the card's type is upper-cased before lookup; a missing rate counts as 1 |
| AccountSummary.LookupIgnoresCase | app/router/dashboard/accounts/components/AccountSummary.tsx:79-83 | a card finds the last listed rate of its currency whatever the case of either spelling |
| AccountSummary.CardUSD | app/router/dashboard/accounts/components/AccountSummary.tsx:80-84 | a card's USD value is NaN exactly when its rate is NaN, else the balance, 0 if unparseable, times the rate |
| AccountSummary.TotalBalanceUSD | app/router/dashboard/accounts/components/AccountSummary.tsx:78-87 | the total is a number exactly when every card's rate is a number, and is then the sum of balance times rate |
| AccountSummary.TotalOfNoCards | app/router/dashboard/accounts/components/AccountSummary.tsx:78-87 | no cards give a total of 0 |
| AccountSummary.TotalOrderIndependent | app/router/dashboard/accounts/components/AccountSummary.tsx:78-87 | the total, NaN or not, does not depend on the order of the cards |
| AccountSummary.UnratedCardsAtParity | app/router/dashboard/accounts/components/AccountSummary.tsx:83 | when no card's currency has a rate, the total is the plain sum of balances |
| AccountSummary.UnparseableRatePoisonsTotal | app/router/dashboard/accounts/components/AccountSummary.tsx:29-31 | one card in a currency whose last listed rate does not parse makes the whole total NaN |
| AccountOverview.GroupedBalances | app/router/dashboard/components/AccountOverview.tsx:65-77 | one slot per account type that occurs, with distinct keys, each holding the sum of that type's balances (unparseable as 0); the slots add up to the sum of all balances |
| AccountOverview.LookupIsTypeSum | app/router/dashboard/components/AccountOverview.tsx:65-77 | reading any type's slot, 0 when absent, gives the sum of that type's balances |
| AccountOverview.LookupOrderIndependent | app/router/dashboard/components/AccountOverview.tsx:65-77 | a type's slot does not depend on the order of the accounts |
| AccountOverview.UnparseableBalanceAddsNothing | app/router/dashboard/components/AccountOverview.tsx:70 | an account whose balance does not parse changes no slot |
| Grouping.Group | app/router/dashboard/components/AccountOverview.tsx:68-76 | the keyed `reduce`: one bucket per distinct key, in order of first appearance, holding that key's sum and count; the totals add up to the grand sum and the counts to the length |
| Grouping.TotalFor | app/router/dashboard/components/AccountOverview.tsx:73 | `acc[k] or 0`: 0 for an absent key, else that bucket's total |
| Grouping.GroupTotalFor | app/router/dashboard/components/AccountOverview.tsx:68-76 | looking up any key in the grouping gives the sum of that key's values |
| Grouping.KeysComplete | app/router/dashboard/components/AccountOverview.tsx:68-76 | a key has a bucket exactly when some element carries it |
| Grouping.KeysInFirstAppearanceOrder | app/router/dashboard/analyti/components/CurrencyDistribution.tsx:77 | a key listed earlier first appears before any appearance of a key listed later |
| CurrencyDistribution.CurrencyColor | app/router/dashboard/analyti/components/CurrencyDistribution.tsx:30-42 | after upper-casing, "USD" is blue, "EUR" or "EURO" green, "CUP" red and every other code grey, each colour for exactly those codes |
| CurrencyDistribution.ColorIgnoresCase | app/router/dashboard/analyti/components/CurrencyDistribution.tsx:31 | the colour does not depend on the case of the code |
| CurrencyDistribution.Charts | app/router/dashboard/analyti/components/CurrencyDistribution.tsx:77 | one bar per bucket, in order, coloured by currency; bar counts and values add up to the buckets' |
| CurrencyDistribution.BucketIsCurrencyTotal | app/router/dashboard/analyti/components/CurrencyDistribution.tsx:51-78 | grouping the accepted transactions by currency gives, per currency, the sum and count of its accepted transactions |
| CurrencyDistribution.Aggregate | app/router/dashboard/analyti/components/CurrencyDistribution.tsx:51-78 | one bar per distinct currency of the accepted transactions, in first-appearance order; each holds that currency's accepted sum and count and its colour; the bars' counts add up to the number accepted and their values to the accepted sum |
| CurrencyDistribution.CurrencyHasBarIff | app/router/dashboard/analyti/components/CurrencyDistribution.tsx:51-78 | a currency has a bar exactly when some transaction with a non-empty currency and a parseable amount carries it |
| CurrencyDistribution.AcceptedCurrencyHasBar | app/router/dashboard/analyti/components/CurrencyDistribution.tsx:58 | every accepted transaction's currency has a bar |
| CurrencyDistribution.BarHasAcceptedCurrency | app/router/dashboard/analyti/components/CurrencyDistribution.tsx:58 | every bar comes from some accepted transaction |
| CurrencyDistribution.CurrencyTotalsOrderIndependent | app/router/dashboard/analyti/components/CurrencyDistribution.tsx:51-78 | a currency's sum and count do not depend on the order of the transactions |
| AccountTrends.Tracked | app/router/dashboard/analyti/components/AccountTrends.tsx:21 | a currency is tracked exactly when its code is literally one of "USD", "EUR", "CUP" |
| AccountTrends.PointsFor | app/router/dashboard/analyti/components/AccountTrends.tsx:73-85 | one point per day key, each currency read from its day's slot, 0 when absent |
| AccountTrends.SlotIsDaySum | app/router/dashboard/analyti/components/AccountTrends.tsx:51-67 | the slot of a day and currency holds the sum of that day's accepted amounts in that currency |
| AccountTrends.SortedDays | app/router/dashboard/analyti/components/AccountTrends.tsx:69-71 | the day keys are strictly increasing and are exactly the days of the accepted transactions |
| AccountTrends.AggregateTrend | app/router/dashboard/analyti/components/AccountTrends.tsx:51-87 | the chart is strictly ordered by day; every point holds its day's per-currency sums and has a positive value; a day is shown exactly when an accepted transaction falls on it and one of its sums is positive |
| AccountTrends.RejectedIgnored | app/router/dashboard/analyti/components/AccountTrends.tsx:59-66 | a transaction without a date, a tracked currency or a parseable amount changes no day's sum |
| AccountTrends.DaySumOrderIndependent | app/router/dashboard/analyti/components/AccountTrends.tsx:51-67 | a day's sums do not depend on the order of the transactions |
| AccountTrends.CalculateGrowth | app/router/dashboard/analyti/components/AccountTrends.tsx:90-97 | fewer than two points give "N/A"; a zero first value gives "Nuevo" if the last is positive and "N/A" otherwise; a non-zero first value gives the percentage that scales the first value to the last |
| AccountTrends.GrowthSign | app/router/dashboard/analyti/components/AccountTrends.tsx:90-97 | from a positive first value, the growth is positive exactly when the last value is larger |
| AccountTrends.TrendViewAsWritten | app/router/dashboard/analyti/components/AccountTrends.tsx:55-58 | as written, the day is read from the record's `createAt` field: a record is dated exactly when it carries a non-empty `createAt`, on the day that value maps to |
| AccountTrends.TrendAsWritten | app/router/dashboard/analyti/components/AccountTrends.tsx:51-87 | as written: if no record carries `createAt` the chart is empty whatever the transactions; if every record carries it with the `createdAt` value, the chart equals the one read from `createdAt` |
| AccountTrends.AsWrittenDropsDatedTransaction | app/router/dashboard/analyti/components/AccountTrends.tsx:55 | a dated USD deposit that carries only `createdAt` gives a point when read from `createdAt` and none as written |
| AccountTrends.UndatedMakesNoChart | app/router/dashboard/analyti/components/AccountTrends.tsx:57-66 | transactions without dates produce no point |
| AccountTrends.TrendView | app/router/dashboard/analyti/components/AccountTrends.tsx:55-58 | corrected: a transaction is dated exactly when its `createdAt` is non-empty, on the day that date maps to |
| AccountTrends.DatedUsdPoint | app/router/dashboard/analyti/components/AccountTrends.tsx:73-85 | a lone dated USD transaction makes a point with its amount in USD and 0 elsewhere |
| AccountTrends.OneAcceptedOnePoint | app/router/dashboard/analyti/components/AccountTrends.tsx:51-87 | a lone accepted transaction with a positive sum makes exactly one point |
| AccountTrends.TrendShowsDatedTransaction | app/router/dashboard/analyti/components/AccountTrends.tsx:51-87 | corrected: one dated USD transaction with a positive amount shows as one point on its day |
| DebtTracker.Colored | app/router/dashboard/components/DebtAndWithdrawalTracker.tsx:88-97 | one slice per bucket, in order, coloured by position in the palette cycle from the offset; slice values add up to the bucket totals |
| DebtTracker.BucketsAreCategoryTotals | app/router/dashboard/components/DebtAndWithdrawalTracker.tsx:71-80 | each category bucket of one side holds the sum of that side's amounts in that category; the buckets add up to the side's total |
| DebtTracker.SideSlices | app/router/dashboard/components/DebtAndWithdrawalTracker.tsx:71-97 | one slice per distinct category of the side's transactions, in order of first appearance, each holding that category's sum on the side; colours cycle through the palette from the offset; the slices add up to the side's total |
| DebtTracker.ProcessTransactions | app/router/dashboard/components/DebtAndWithdrawalTracker.tsx:65-103 | income is the sum of deposits, expense the sum of the rest, net their difference; each side has one slice per category of its transactions, in order of first appearance, with that category's sum; income colours start at palette slot 0 and expense colours at slot 5; the balance chart holds the two totals |
| DebtTracker.IncomeSliceIff | app/router/dashboard/components/DebtAndWithdrawalTracker.tsx:71-75 | a category has an income slice exactly when some deposit carries it, including a deposit whose amount is zero |
| DebtTracker.ExpenseSliceIff | app/router/dashboard/components/DebtAndWithdrawalTracker.tsx:76-79 | a category has an expense slice exactly when some transaction that is not a deposit carries it |
| DebtTracker.IncomeAndExpensePartition | app/router/dashboard/components/DebtAndWithdrawalTracker.tsx:71-80 | income plus expense is the sum of all amounts |
| DebtTracker.NetIsSignedSum | app/router/dashboard/components/DebtAndWithdrawalTracker.tsx:82 | the net balance is the sum of deposits taken positive and the rest taken negative |
| DebtTracker.TotalsOrderIndependent | app/router/dashboard/components/DebtAndWithdrawalTracker.tsx:65-80 | income and expense do not depend on the order of the transactions |
| AccountCards.CurrencySymbol | app/router/dashboard/accounts/components/AccountCards.tsx:116-127 | EUR, USD and CUP map to their symbols; any other code is shown as itself, and only those are |
| AccountCards.CardStyle | app/router/dashboard/accounts/components/AccountCards.tsx:107-114 | the style is one of the five listed; unknown types get the default; the USD style belongs to exactly the "USD" type |
| AccountCards.View | app/router/dashboard/accounts/components/AccountCards.tsx:281-289 | the card shows the number's last four characters (all when shorter), the style and symbol of its account, the parsed balance, or 0 when it does not parse, and dark text exactly for USD accounts |
| AccountCards.DeleteFailureMessage | app/router/dashboard/accounts/components/AccountCards.tsx:87-101 | a failed delete shows the back end's message, else axios's, else an `Error`'s message, else a text naming the card id |
| AccountCards.HandleDelete | app/router/dashboard/accounts/components/AccountCards.tsx:191-228 | nothing happens without confirmation; otherwise the busy marker is cleared; a success removes exactly the cards with that id and keeps every other; a failure keeps the cards and shows the failure's message |
| AccountCards.DeleteKeepsOrder | app/router/dashboard/accounts/components/AccountCards.tsx:208 | deletion acts on each part of the list on its own, so the remaining cards keep their order |
| AccountCards.DeleteCount | app/router/dashboard/accounts/components/AccountCards.tsx:208 | the remaining cards plus those removed are all the cards |
| AccountCards.DeleteIdempotent | app/router/dashboard/accounts/components/AccountCards.tsx:208 | deleting the same id twice leaves what deleting it once does |
| AccountCards.LoadErrorAsWritten | app/router/dashboard/accounts/components/AccountCards.tsx:174-180 | as written, a back-end message on a non-401 error is thrown as a string, so the grid shows the generic unknown-error text |
| AccountCards.BackendLoadMessageLost | app/router/dashboard/accounts/components/AccountCards.tsx:61-64 | as written, a 403 with message "Cuenta bloqueada" does not show that message |
| AccountCards.LoadError | app/router/dashboard/accounts/components/AccountCards.tsx:55-71 | corrected: a 401 shows the expired-token text; another request error shows the back end's message or the fetch-failed text; an `Error` shows its message |
| AccountCards.LoadErrorShowsBackendMessage | app/router/dashboard/accounts/components/AccountCards.tsx:61-64 | corrected: any non-empty back-end message on a non-401 error reaches the screen |
| RateEditor.Initial | app/router/dashboard/accounts/components/ExchangeRateForm.tsx:14-41 | the editor starts with USD at 1, empty inputs and no status |
| RateEditor.ChangeRate | app/router/dashboard/accounts/components/ExchangeRateForm.tsx:48-57 | the edited code takes the parsed value, 0 when it does not parse, and is added if absent; every other rate is kept; the status clears |
| RateEditor.AddRate | app/router/dashboard/accounts/components/ExchangeRateForm.tsx:60-80 | an empty trimmed name, an unparseable rate or a rate at or below 0 is refused; an existing upper-cased key is refused as a duplicate; otherwise the rate is stored under the trimmed upper-cased key, the inputs clear and a success status names the key; the table changes only with a success status |
| RateEditor.BlankNameRefused | app/router/dashboard/accounts/components/ExchangeRateForm.tsx:61-67 | a new name made only of white space is refused with an error and leaves the table unchanged |
| RateEditor.AddInsertsOne | app/router/dashboard/accounts/components/ExchangeRateForm.tsx:73-79 | an accepted addition adds exactly one key, with a positive rate, and keeps every other rate |
| RateEditor.DeleteRate | app/router/dashboard/accounts/components/ExchangeRateForm.tsx:83-94 | USD cannot be deleted and only an error is shown; any other code is removed with the rest kept and a success status |
| RateEditor.StepKeepsBase | app/router/dashboard/accounts/components/ExchangeRateForm.tsx:83-87 | no single action removes USD |
| RateEditor.RunKeepsBase | app/router/dashboard/accounts/components/ExchangeRateForm.tsx:83-87 | no sequence of actions removes USD from a table that has it |
| RateEditor.BaseNeverRemoved | app/router/dashboard/accounts/components/ExchangeRateForm.tsx:14-20 | from the initial table, USD is present after any sequence of actions |
| RateEditor.AddedRatesPositive | app/router/dashboard/accounts/components/ExchangeRateForm.tsx:64 | without in-place edits, a table of positive rates stays positive whatever is added or deleted |
| RateEditor.RunKeepsPositiveStep | app/router/dashboard/accounts/components/ExchangeRateForm.tsx:60-94 | one action other than an in-place edit keeps all rates positive |
| RateEditor.AddKeepsPositive | app/router/dashboard/accounts/components/ExchangeRateForm.tsx:64 | an addition keeps all rates positive |
| Strings.Trim | app/router/dashboard/accounts/components/ExchangeRateForm.tsx:61 | the result is an infix of the input with only white space before and after it, and has no white space at either end; it is empty exactly when the input is all white space; an input already trimmed is unchanged |
| Strings.Upper | app/router/dashboard/accounts/components/ExchangeRateForm.tsx:61 | each ASCII lower-case letter is upper-cased; length and other characters are kept |
| Strings.UpperIdempotent | app/router/dashboard/accounts/components/ExchangeRateForm.tsx:61 | upper-casing twice is upper-casing once |
| RateAdmin.ApplyReload | app/router/dashboard/exchangerate/components/componet.tsx:28-38 | a reload replaces the list or shows the load error, changing nothing else |
| RateAdmin.HandleCreate | app/router/dashboard/exchangerate/components/componet.tsx:44-69 | an empty field sends nothing and shows the missing-fields error; otherwise the upper-cased code and parsed rate are sent; a success clears the inputs, names the code and reloads; a failure keeps the inputs and shows the error; edit mode is untouched |
| RateAdmin.HandleEdit | app/router/dashboard/exchangerate/components/componet.tsx:84-87 | edit mode opens on the row with its printed rate, and nothing else changes |
| RateAdmin.HandleCancelEdit | app/router/dashboard/exchangerate/components/componet.tsx:89-92 | edit mode closes with an empty input, and nothing else changes |
| RateAdmin.HandleUpdate | app/router/dashboard/exchangerate/components/componet.tsx:94-111 | an empty input sends nothing and shows the error; otherwise the parsed rate is sent; a success leaves edit mode, shows the success text and reloads; a failure stays in edit mode and shows the error |
| RateAdmin.HandleDelete | app/router/dashboard/exchangerate/components/componet.tsx:71-82 | nothing happens without confirmation; otherwise the delete is sent, then the list reloads or the error shows |
| RateAdmin.CancelUndoesEdit | app/router/dashboard/exchangerate/components/componet.tsx:84-92 | cancelling an edit restores the state from before it |
| RateAdmin.CreateCodeIsUpperCase | app/router/dashboard/exchangerate/components/componet.tsx:57 | the code sent is upper-case, and an input in any case sends the same request |
| RateAdmin.EditThenSave | app/router/dashboard/exchangerate/components/componet.tsx:84-105 | editing a row and saving it unchanged sends the row's printed-and-reparsed rate and leaves edit mode |
| CardForm.HandleChange | app/router/dashboard/accounts/card/page.tsx:48-55 | the edited field takes the value, the other is kept and both banners clear |
| CardForm.FailureMessage | app/router/dashboard/accounts/card/page.tsx:89-98 | a request error shows the back end's message or axios's; another `Error` shows its message; anything else shows the generic text |
| CardForm.HandleSubmitAsWritten | app/router/dashboard/accounts/card/page.tsx:101-106 | as written, after a valid successful submit the button stays disabled only if a success banner was already showing when the handler was created |
| CardForm.SuccessReenablesButton | app/router/dashboard/accounts/card/page.tsx:104-106 | as written, a successful submit from a fresh render re-enables the button before the redirect |
| CardForm.HandleSubmit | app/router/dashboard/accounts/card/page.tsx:57-108 | corrected: an invalid form sends nothing and shows the validation error; a valid one sends the number and the parsed account id; a success shows the success banner and keeps the button disabled; a failure shows the failure's message and re-enables it |
| CardForm.OnlyLoadingDiffers | app/router/dashboard/accounts/card/page.tsx:101-106 | the written and corrected handlers send the same request and differ only in the disabled flag |
| CardForm.LettersPass | app/router/dashboard/accounts/card/page.tsx:65 | only the length of the card number is checked, so ten letters are accepted |
| CardForm.RequestIffValid | app/router/dashboard/accounts/card/page.tsx:63-76 | a request is sent exactly when the form is valid, carrying a positive account id and a number of at least ten characters |
| IncomeForm.InitialCard | app/router/dashboard/accounts/income/components/IncomeForm.tsx:12-15 | the card field starts with the `card` query parameter when it is present and non-empty, and is empty otherwise |
| IncomeForm.Initial | app/router/dashboard/accounts/income/components/IncomeForm.tsx:15-20 | the other fields start empty, with no banner |
| IncomeForm.HandleSubmit | app/router/dashboard/accounts/income/components/IncomeForm.tsx:22-37 | no field changes; a banner always shows, a success exactly when card, amount and date are filled, with the fixed texts |
| IncomeForm.MessageClasses | app/router/dashboard/accounts/income/components/IncomeForm.tsx:39-43 | no classes without a banner, the red classes exactly for an error and the green ones exactly for a success |
| IncomeForm.SubmitIgnoresPreviousMessage | app/router/dashboard/accounts/income/components/IncomeForm.tsx:24 | the previous banner has no effect on a submit |
| IncomeForm.DescriptionIsOptional | app/router/dashboard/accounts/income/components/IncomeForm.tsx:26 | the description has no effect on the outcome |
| IncomeForm.SubmitIdempotent | app/router/dashboard/accounts/income/components/IncomeForm.tsx:22-37 | submitting twice gives what submitting once does |
| IncomeForm.FreshFormIsRejected | app/router/dashboard/accounts/income/components/IncomeForm.tsx:15-29 | a freshly opened form is always refused, since the date starts empty |
| AccountList.GetGrowth | app/router/dashboard/accounts/components/AccountList.tsx:7-11 | the difference brings the previous balance to the current one; the percentage exists exactly when the previous balance is non-zero, and scales it to the current one |
| AccountList.ShowChange | app/router/dashboard/accounts/components/AccountList.tsx:29-36 | green with "+" exactly for a non-negative change, red with "-" otherwise; the sign and the absolute value read back as the change |
| AccountList.RowShowsMovement | app/router/dashboard/accounts/components/AccountList.tsx:27-36 | every row reads back as its balance minus its previous balance, and is green exactly when the balance did not fall |
| AccountList.ListedAccountsAllGrew | app/router/dashboard/accounts/components/AccountList.tsx:1-5 | all three listed accounts show growth; the dollar account grew by 650 |
| CurrencyAnalytics.CandleBody | app/router/dashboard/components/CurrencyAnalytics.tsx:52-77 | the candle shape the file defines (the chart never attaches it to a bar): a candle is rising exactly when it closes at or above its open; its height is the non-negative distance from open to close; green when rising, red otherwise |
| CurrencyAnalytics.Suggest | app/router/dashboard/components/CurrencyAnalytics.tsx:80-92 | the advice is growth, loss or no change by the sign of the last week's close minus open, names that week, and carries a percentage (when the open is non-zero) that scales the open to the move; a loss percentage is positive |
| CurrencyAnalytics.SuggestionReadsLastWeekOnly | app/router/dashboard/components/CurrencyAnalytics.tsx:81 | earlier weeks do not affect the advice |
| CurrencyAnalytics.SuggestionMatchesLastCandle | app/router/dashboard/components/CurrencyAnalytics.tsx:56-90 | measured against the colour the unused candle shape would give the last week: loss advice comes exactly with a falling last candle; growth advice only with a rising one; no change only with a flat one |
| CurrencyAnalytics.ShownSuggestion | app/router/dashboard/components/CurrencyAnalytics.tsx:28-39 | the built-in weeks give loss advice for week 34 of 100/33 percent |
| Http.OrElse | lib/auth-service.ts:123-126 | JavaScript `or` (`a or b`) on optional strings: `a` when it is a non-empty string, else `b` |
| AuthService.ApiErrorMessage | lib/auth-service.ts:113-132 | a 401 gives the expired-token text; another request error gives the body's message, else a text body, else axios's message, else the default; anything else gives the default |
| AuthService.AuthHeader | lib/auth-service.ts:196-202 | a header exists exactly when a non-empty token is stored in a browser, and it is "Bearer " plus the token; otherwise the token-missing error |
| AuthService.InitialAndName | lib/auth-service.ts:174-189 | outside a browser, the loading placeholder; else the stored name, else the stored email, else "Usuario" with "U"; a shown name's initial is its upper-cased first character |
| AuthService.ProcessTransaction | lib/auth-service.ts:260-270 | the amount is parsed with NaN kept; the card balance is parsed with NaN as 0; every other field is copied |
| AuthService.ProcessTransactions | lib/auth-service.ts:258-270 | the response is mapped element by element, keeping length and order |
| AuthService.StoreLogin | lib/auth-service.ts:157-162 | in a browser, the token, email and name are stored under their keys and every other key is kept; outside one, nothing changes |
| AuthService.LoginAuthorizes | lib/auth-service.ts:151-202 | after a login with a non-empty token, privileged requests carry that token |
| Strings.Initial | lib/auth-service.ts:184 | `charAt(0).toUpperCase()`: empty for an empty string, else the upper-cased first character |
| Sidebar.UserInfo | app/router/dashboard/components/Sidebar.tsx:13-26 | outside a browser, the loading placeholder; else the stored email, else the literal "name"; the initial is always the upper-cased first character |
| Sidebar.Logout | app/router/dashboard/components/Sidebar.tsx:29-36 | as written, only "authToken" and "userName" are removed; every other entry is kept |
| Sidebar.LogoutRevokesToken | app/router/dashboard/components/Sidebar.tsx:31 | after logout no privileged request can be authorised |
| Sidebar.LogoutKeepsIdentity | app/router/dashboard/components/Sidebar.tsx:32 | as written, login then logout leaves the email and name behind, and the badge still shows the previous user |
| Sidebar.LogoutForgettingUser | app/router/dashboard/components/Sidebar.tsx:29-36 | corrected: logout also removes the email and name that login stores |
| Sidebar.ForgettingLogoutShowsNoUser | app/router/dashboard/components/Sidebar.tsx:13-26 | corrected: after login then logout, both badges show their anonymous placeholders and no request is authorised |
| Sorting.SortBy | app/router/dashboard/components/TransactionHistory.tsx:45-48 | the result is ordered by the key and is a permutation of the input |
| Strings.LastChars | app/router/dashboard/accounts/components/AccountCards.tsx:281 | `slice(-n)`: the last `n` characters, all of them when shorter, a suffix of the input |
| Strings.IntToString | app/router/dashboard/accounts/components/AccountCards.tsx:91 | the decimal text of an integer starts with "-" exactly for negatives, the rest is digits without a leading zero, and those digits read back as the integer's magnitude |
| Strings.NatToString | app/router/dashboard/accounts/components/AccountCards.tsx:91 | `String(n)` of a non-negative integer: only digits, no leading zero, and reading the digits back gives `n` |

## Left out

- Floating point is not modelled.
  - Money is an exact `real`, so rounding error and overflow to Infinity are absent.
  - NaN is represented only where the source's logic depends on it, as `None`.
- Division by zero in `getGrowth` and `getSuggestion` gives Infinity or NaN text in JavaScript. The model gives no percentage (`None`) instead.
- Number formatting (`toFixed`, `toLocaleString`) is left out. So is the re-parse of the loss percentage from its two-decimal text.
  - `CurrencyAnalytics.Suggest`'s percentage is the exact ratio.
  - `RateAdmin.HandleEdit` takes `String(number)` as a parameter.
  - `AccountTrends.CalculateGrowth` returns the exact percentage rather than its two-decimal text.
- Date parsing is abstract.
  - A transaction's day key is an integer that a parameter derives from its date string.
  - Account creation time is an integer.
  - `toISOString` throwing on an invalid date is not modelled.
- HTTP calls (axios), `Promise.all`, loading spinners and refetching are not modelled. A handler receives the outcome of its remote call and of the reload that follows it as parameters.
- `window.confirm`, `router.push`, `setTimeout` redirects and `window.location` are not modelled. The confirmation answer is a parameter; navigation is left out.
- The mock data and simulated delay of the debt tracker are left out. Its processing function is modelled on any input.
- The static fallback rate table of the consolidated view is left out. So is the display-name map of the account overview and its redirect on a missing token.
- Object key order for integer-like keys is not modelled; JavaScript lists those first. Buckets keep insertion order.
  - Inherited prototype keys such as "constructor" are not modelled either.
- Strings are sequences of characters, so three things are not modelled:
  - UTF-16 length;
  - non-ASCII case mapping (upper-casing changes only `a`–`z`);
  - white space beyond the common ASCII and Unicode separators.
- `Progress.CalculateProgress` requires a non-zero goal. Both callers pass one that is non-zero, or they handle the zero total separately as NaN.
- `CurrencyAnalytics.Suggest` requires a non-empty week list. On an empty list the source throws when it reads the last element.
- The vertical position of a candle's rectangle is left out, because it is chart geometry.
- `CandlestickBar` is modelled as the file defines it, although the chart never attaches it to a bar. The two transparent bars the chart does draw carry no modelled property.
- An error body whose `message` is an array of strings is not modelled. NestJS validation errors take that form. `Http.JsonBody` carries at most one string, so what a component shows for an array message is not stated.
- The register and login screens and the exchange-rate HTTP client are not part of this model. Only their effects through the session helpers are modelled.

## Findings

| source | as written | input that shows it | evidently intended | confidence | as-written member | corrected member |
|---|---|---|---|---|---|---|
| app/router/dashboard/components/Sidebar.tsx:29-36 | logout removes "authToken" and "userName", but login writes "email" and "name", and no code writes "userName" | log in with email "a@b.c", then log out: the badge still reads "a@b.c" | logout forgets the stored identity | high (not executed) | Sidebar.LogoutKeepsIdentity | Sidebar.ForgettingLogoutShowsNoUser |
| app/router/dashboard/analyti/components/AccountTrends.tsx:55 | the day is read from `createAt`, while the `Transaction` type that `getTransaction` returns declares `createdAt` (lib/auth-service.ts:68); the trend reaches `createAt` only through the `unknown` cast at AccountTrends.tsx:156. `Account` declares `createAt` (lib/auth-service.ts:17) and TransactionHistory.tsx:47 also reads `createAt` from transactions, so the source does not settle which name the server sends | a record carrying `createdAt` but no `createAt`: it is skipped, and a list of such records gives an empty chart | read the field the `Transaction` type declares, so dated transactions appear | low (not executed) | AccountTrends.AsWrittenDropsDatedTransaction | AccountTrends.TrendShowsDatedTransaction |
| app/router/dashboard/accounts/components/AccountCards.tsx:61-64 | the back end's message is thrown as a bare string, and the caller shows only `Error` messages | a 403 with body message "Cuenta bloqueada": the grid shows "Error desconocido al cargar las tarjetas." | throw an `Error` carrying the back end's message | high (not executed) | AccountCards.BackendLoadMessageLost | AccountCards.LoadErrorShowsBackendMessage |
| app/router/dashboard/accounts/card/page.tsx:104-106 | `finally` reads the `success` value captured when the handler was created, which is null on a fresh render | a valid form and a successful request: the button is re-enabled while the redirect is pending | keep the button disabled after a success | medium (not executed) | CardForm.SuccessReenablesButton | CardForm.HandleSubmit |
