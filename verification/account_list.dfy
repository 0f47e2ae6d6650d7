/** The account table of
    `app/router/dashboard/accounts/components/AccountList.tsx`: the growth of
    each balance against the previous one and how the change is shown. */
module AccountList {
  import opened Wrappers
  import opened Numeric

  /** `getGrowth`'s result. The percentage is `None` when the previous
      balance is zero, where JavaScript would divide by zero. */
  datatype Growth = Growth(diff: real, percent: Option<real>)

  /** `getGrowth(current, previous)`. */
  function GetGrowth(current: real, previous: real): (g: Growth)
    ensures previous + g.diff == current
    ensures g.percent.Some? <==> previous != 0.0
    ensures g.percent.Some? ==> previous * (1.0 + g.percent.value / 100.0) == current
  {
    var diff := current - previous;
    if previous == 0.0 then Growth(diff, None)
    else
      var percent := diff / previous * 100.0;
      assert previous * (percent / 100.0) == diff;
      Growth(diff, Some(percent))
  }

  const PositiveClass := "text-green-600"
  const NegativeClass := "text-red-600"

  /** The "Incremento" cell: a sign prefix, the magnitude of the change and
      the text colour. */
  datatype Change = Change(positive: bool, sign: string, magnitude: real, colorClass: string)

  /** The signed amount the cell reads as. */
  function Reading(c: Change): real {
    if c.sign == "+" then c.magnitude else -c.magnitude
  }

  /** The cell for a change `diff`: green with "+" when `diff >= 0`, red
      with "-" otherwise, and `Math.abs(diff)` after the sign. */
  function ShowChange(diff: real): (c: Change)
    ensures c.positive <==> diff >= 0.0
    ensures c.sign == (if c.positive then "+" else "-")
    ensures c.colorClass == (if c.positive then PositiveClass else NegativeClass)
    ensures c.magnitude >= 0.0
    ensures Reading(c) == diff
  {
    var positive := diff >= 0.0;
    Change(positive, if positive then "+" else "-", Abs(diff), if positive then PositiveClass else NegativeClass)
  }

  /** An account row of the table. */
  datatype Row = Row(name: string, currency: string, balance: real, previous: real)

  /** A row's cell reads as exactly how far the balance moved, and is
      green exactly when the balance did not fall. */
  lemma RowShowsMovement(r: Row)
    ensures Reading(ShowChange(GetGrowth(r.balance, r.previous).diff)) == r.balance - r.previous
    ensures ShowChange(GetGrowth(r.balance, r.previous).diff).positive <==> r.balance >= r.previous
  {
  }

  /** The three accounts the table lists. */
  const Accounts := [
    Row("Cuenta USD", "USD", 12450.0, 11800.0),
    Row("Cuenta EUR", "EUR", 9320.0, 9100.0),
    Row("Cuenta CLP", "CLP", 245000.0, 243000.0)
  ]

  /** Every listed account grew, so every cell is green. */
  lemma ListedAccountsAllGrew()
    ensures forall i :: 0 <= i < |Accounts| ==> ShowChange(GetGrowth(Accounts[i].balance, Accounts[i].previous).diff).positive
    ensures GetGrowth(Accounts[0].balance, Accounts[0].previous).diff == 650.0
  {
  }
}
