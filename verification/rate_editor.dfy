/** The local rate-table editor of
    `app/router/dashboard/accounts/components/ExchangeRateForm.tsx`:
    each handler is a transition on the form's state. */
module RateEditor {
  import opened Wrappers
  import opened Numeric
  import opened Strings

  datatype StatusKind = Cleared | Success | Error

  datatype Status = Status(message: string, kind: StatusKind)

  /** The component state: the rate table being edited, the two inputs of
      the "add" row and the status banner. */
  datatype Form = Form(rates: map<string, real>, newCurrency: string, newRateValue: string, status: Status)

  const Base := "USD"

  /** `INITIAL_RATES`: value of one unit in USD. */
  const InitialRates: map<string, real> :=
    map["USD" := 1.0, "CUP" := 1.0 / 467.0, "EUR" := 1.0 / 0.80, "Savings" := 1.0 / 250.0, "Euro" := 1.0 / 0.80]

  const NoStatus := Status("", Cleared)
  const InvalidEntryMessage := "El nombre y la tasa deben ser válidos."
  const BaseDeleteMessage := "La divisa base (USD) no puede ser eliminada."

  function DuplicateMessage(key: string): string {
    "La divisa '" + key + "' ya existe."
  }

  function AddedMessage(key: string): string {
    "Tasa para " + key + " agregada. ¡No olvides guardar!"
  }

  function DeletedMessage(key: string): string {
    "Tasa para " + key + " eliminada. ¡No olvides guardar!"
  }

  /** The state the component mounts with. */
  function Initial(): (f: Form)
    ensures Base in f.rates && f.rates[Base] == 1.0
    ensures f.newCurrency == "" && f.newRateValue == "" && f.status == NoStatus
  {
    Form(InitialRates, "", "", NoStatus)
  }

  /** `handleRateChange`: stores the parsed value, or 0 when it does not
      parse, and clears the status. */
  function ChangeRate(f: Form, currency: string, value: string, parse: Parser): (g: Form)
    ensures currency in g.rates
    ensures parse(value).Some? ==> g.rates[currency] == parse(value).value
    ensures parse(value).None? ==> g.rates[currency] == 0.0
    ensures g.rates.Keys == f.rates.Keys + {currency}
    ensures forall k :: k in f.rates && k != currency ==> g.rates[k] == f.rates[k]
    ensures g.status == NoStatus
    ensures g.newCurrency == f.newCurrency && g.newRateValue == f.newRateValue
  {
    f.(rates := f.rates[currency := OrZero(parse(value))], status := NoStatus)
  }

  /** The key a new entry is stored under. */
  function NewKey(f: Form): string {
    Upper(Trim(f.newCurrency))
  }

  /** Whether the "add" inputs pass the first guard of `handleAddRate`. */
  predicate ValidEntry(f: Form, parse: Parser) {
    NewKey(f) != "" && parse(f.newRateValue).Some? && parse(f.newRateValue).value > 0.0
  }

  /** `handleAddRate`. */
  function AddRate(f: Form, parse: Parser): (g: Form)
    // an empty (all white space) name, an unparseable rate or a rate <= 0 is refused
    ensures !ValidEntry(f, parse) ==>
      g == f.(status := Status(InvalidEntryMessage, Error))
    // a key that exists after trimming and upper-casing is refused
    ensures ValidEntry(f, parse) && NewKey(f) in f.rates ==>
      g == f.(status := Status(DuplicateMessage(NewKey(f)), Error))
    // otherwise the entry is stored under its key and the inputs are reset
    ensures ValidEntry(f, parse) && NewKey(f) !in f.rates ==>
      && g.rates == f.rates[NewKey(f) := parse(f.newRateValue).value]
      && g.newCurrency == "" && g.newRateValue == ""
      && g.status == Status(AddedMessage(NewKey(f)), Success)
    ensures g.rates != f.rates ==> g.status.kind == Success
  {
    var key := NewKey(f);
    var rate := parse(f.newRateValue);
    if key == "" || rate.None? || rate.value <= 0.0 then
      f.(status := Status(InvalidEntryMessage, Error))
    else if key in f.rates then
      f.(status := Status(DuplicateMessage(key), Error))
    else
      f.(rates := f.rates[key := rate.value], newCurrency := "", newRateValue := "",
         status := Status(AddedMessage(key), Success))
  }

  /** A name of white space only is refused, and the table is left as it was. */
  lemma BlankNameRefused(f: Form, parse: Parser)
    requires AllSpace(f.newCurrency)
    ensures AddRate(f, parse).rates == f.rates && AddRate(f, parse).status.kind == Error
  {
    assert NewKey(f) == "";
  }

  /** An accepted "add" puts exactly one new entry in the table and leaves
      every other rate as it was. */
  lemma AddInsertsOne(f: Form, parse: Parser)
    requires ValidEntry(f, parse) && NewKey(f) !in f.rates
    ensures var g := AddRate(f, parse);
      && g.rates.Keys == f.rates.Keys + {NewKey(f)}
      && |g.rates| == |f.rates| + 1
      && g.rates[NewKey(f)] > 0.0
      && forall k :: k in f.rates ==> g.rates[k] == f.rates[k]
  {
    var g := AddRate(f, parse);
    var k, v := NewKey(f), parse(f.newRateValue).value;
    assert g.rates == f.rates[k := v];
    assert g.rates.Keys == f.rates.Keys + {k};
    assert |f.rates.Keys + {k}| == |f.rates.Keys| + 1;
  }

  /** `handleDeleteRate`. */
  function DeleteRate(f: Form, currency: string): (g: Form)
    ensures currency == Base ==> g == f.(status := Status(BaseDeleteMessage, Error))
    ensures currency != Base ==> g.rates.Keys == f.rates.Keys - {currency}
    ensures currency != Base ==> forall k :: k in g.rates ==> g.rates[k] == f.rates[k]
    ensures currency != Base ==> g.status == Status(DeletedMessage(currency), Success)
    ensures Base in f.rates ==> Base in g.rates
  {
    if currency == Base then f.(status := Status(BaseDeleteMessage, Error))
    else f.(rates := f.rates - {currency}, status := Status(DeletedMessage(currency), Success))
  }

  /** The user actions of the component. */
  datatype Action =
    | TypeCurrency(text: string)          // typing in the new-currency input
    | TypeRate(text: string)              // typing in the new-rate input
    | Change(currency: string, value: string)
    | Add
    | Delete(currency: string)

  function Step(f: Form, a: Action, parse: Parser): Form {
    match a
    case TypeCurrency(t) => f.(newCurrency := t)
    case TypeRate(t) => f.(newRateValue := t)
    case Change(c, v) => ChangeRate(f, c, v, parse)
    case Add => AddRate(f, parse)
    case Delete(c) => DeleteRate(f, c)
  }

  function Run(f: Form, actions: seq<Action>, parse: Parser): Form
    decreases |actions|
  {
    if |actions| == 0 then f else Run(Step(f, actions[0], parse), actions[1..], parse)
  }

  /** Every action keeps the base currency in the table. */
  lemma StepKeepsBase(f: Form, a: Action, parse: Parser)
    requires Base in f.rates
    ensures Base in Step(f, a, parse).rates
  {
  }

  /** Starting from `INITIAL_RATES`, no sequence of edits, additions and
      deletions removes "USD" from the table. */
  lemma {:induction false} BaseNeverRemoved(actions: seq<Action>, parse: Parser)
    ensures Base in Run(Initial(), actions, parse).rates
  {
    RunKeepsBase(Initial(), actions, parse);
  }

  lemma {:induction false} RunKeepsBase(f: Form, actions: seq<Action>, parse: Parser)
    requires Base in f.rates
    ensures Base in Run(f, actions, parse).rates
    decreases |actions|
  {
    if |actions| > 0 {
      StepKeepsBase(f, actions[0], parse);
      RunKeepsBase(Step(f, actions[0], parse), actions[1..], parse);
    }
  }

  /** A rate entered through "add" is always positive; one entered by
      editing a row is not checked (an unparseable edit stores 0). */
  lemma {:induction false} AddedRatesPositive(f: Form, actions: seq<Action>, parse: Parser)
    requires forall k :: k in f.rates ==> f.rates[k] > 0.0
    requires forall i :: 0 <= i < |actions| ==> !actions[i].Change?
    ensures var g := Run(f, actions, parse); forall k :: k in g.rates ==> g.rates[k] > 0.0
    decreases |actions|
  {
    if |actions| > 0 {
      RunKeepsPositiveStep(f, actions[0], parse);
      AddedRatesPositive(Step(f, actions[0], parse), actions[1..], parse);
      assert Run(f, actions, parse) == Run(Step(f, actions[0], parse), actions[1..], parse);
    }
  }

  lemma RunKeepsPositiveStep(f: Form, a: Action, parse: Parser)
    requires forall k :: k in f.rates ==> f.rates[k] > 0.0
    requires !a.Change?
    ensures var g := Step(f, a, parse); forall k :: k in g.rates ==> g.rates[k] > 0.0
  {
    if a.Add? {
      AddKeepsPositive(f, parse);
    }
  }

  /** "add" stores only a positive rate. */
  lemma AddKeepsPositive(f: Form, parse: Parser)
    requires forall k :: k in f.rates ==> f.rates[k] > 0.0
    ensures var g := AddRate(f, parse); forall k :: k in g.rates ==> g.rates[k] > 0.0
  {
    var g := AddRate(f, parse);
    if ValidEntry(f, parse) && NewKey(f) !in f.rates {
      forall k | k in g.rates ensures g.rates[k] > 0.0 {
        if k != NewKey(f) {
          assert k in f.rates;
        }
      }
    }
  }
}
