/** The card grid of
    `app/router/dashboard/accounts/components/AccountCards.tsx`: how one card
    is shown, and what deleting a card does to the grid's state. */
module AccountCards {
  import opened Wrappers
  import opened Numeric
  import opened Strings
  import opened Sums
  import opened Http

  /** The account inside a card, as this screen reads it; `balance` is
      `parseFloat(account.balance)`. */
  datatype CardAccountData = CardAccountData(
    id: int, name: string, accountType: string, currency: string, balance: Option<real>)

  datatype CardData = CardData(id: int, number: string, account: CardAccountData)

  /** `getCurrencySymbol`: exact codes only; any other code is shown as is. */
  function CurrencySymbol(currency: string): (s: string)
    ensures currency == "EUR" ==> s == "€"
    ensures currency == "USD" ==> s == "$"
    ensures currency == "CUP" ==> s == "₱"
    ensures s == currency <==> currency !in {"EUR", "USD", "CUP"}
  {
    if currency == "EUR" then "€"
    else if currency == "USD" then "$"
    else if currency == "CUP" then "₱"
    else currency
  }

  const EuroStyle := "bg-gradient-to-br from-yellow-500 to-amber-700 text-white"
  const UsdStyle := "bg-gradient-to-br from-gray-300 to-gray-500 text-gray-900"
  const CupStyle := "bg-gradient-to-br from-orange-800 to-red-900 text-white"
  const DefaultStyle := "bg-gradient-to-br from-blue-400 to-indigo-700 text-white"
  const SavingsStyle := "bg-gradient-to-br from-green-400 to-green-700 text-white"

  /** `cardStylesByType[cardType] || cardStylesByType.DEFAULT`: the table
      is keyed by account type ("Euro", not "EUR"), and every type outside
      it falls back to the default style. */
  function CardStyle(accountType: string): (s: string)
    ensures accountType !in {"Euro", "USD", "CUP", "Savings"} ==> s == DefaultStyle
    ensures s in {EuroStyle, UsdStyle, CupStyle, DefaultStyle, SavingsStyle}
    ensures s == UsdStyle <==> accountType == "USD"
  {
    if accountType == "Euro" then EuroStyle
    else if accountType == "USD" then UsdStyle
    else if accountType == "CUP" then CupStyle
    else if accountType == "Savings" then SavingsStyle
    else DefaultStyle
  }

  /** What one card shows. */
  datatype CardView = CardView(last4: string, style: string, symbol: string, balance: real, textColor: string)

  const DarkText := "text-gray-900"
  const LightText := "text-white"

  /** The values the grid computes for one card: the last four characters
      of the number (all of it when shorter), the style of its account
      type, the symbol of its currency, the balance with 0 for one that
      does not parse, and dark text exactly for USD accounts. */
  function View(c: CardData): (v: CardView)
    ensures |v.last4| == MinInt(4, |c.number|)
    ensures c.number == c.number[..|c.number| - |v.last4|] + v.last4
    ensures v.style == CardStyle(c.account.accountType)
    ensures v.symbol == CurrencySymbol(c.account.currency)
    ensures c.account.balance.None? ==> v.balance == 0.0
    ensures c.account.balance.Some? ==> v.balance == c.account.balance.value
    ensures v.textColor == DarkText <==> c.account.accountType == "USD"
    ensures v.textColor == LightText <==> c.account.accountType != "USD"
  {
    CardView(LastChars(c.number, 4), CardStyle(c.account.accountType), CurrencySymbol(c.account.currency),
             OrZero(c.account.balance), if c.account.accountType == "USD" then DarkText else LightText)
  }

  /** The grid's state: the cards shown, the error shown, and the card
      being deleted. */
  datatype Grid = Grid(cards: seq<CardData>, error: Option<string>, deletingId: Option<int>)

  /** `card => card.id !== cardId` */
  function IdIsNot(cardId: int): CardData -> bool {
    (c: CardData) => c.id != cardId
  }

  const DeleteFallbackMessage := "Error al eliminar la tarjeta."

  /** The message of the `Error` that `deleteCard` throws: the body's
      `message` or else axios's own message for a request error, the
      message of any other `Error`, and a text naming the card otherwise.
      `handleDelete` shows it as is, so its own fallback never applies. */
  function DeleteFailureMessage(cardId: int, f: Failure): (m: string)
    ensures f.AxiosFailure? && Truthy(BodyMessage(f.data)) ==> m == BodyMessage(f.data).value
    ensures f.AxiosFailure? && !Truthy(BodyMessage(f.data)) ==> m == f.message
    ensures f.ErrorFailure? ==> m == f.message
    ensures f.OtherFailure? ==> m == "Error al eliminar la tarjeta con ID " + IntToString(cardId) + "."
  {
    match f
    case AxiosFailure(_, data, message) => OrElse(BodyMessage(data), Some(message)).value
    case ErrorFailure(message) => message
    case OtherFailure => "Error al eliminar la tarjeta con ID " + IntToString(cardId) + "."
  }

  /** `handleDelete(cardId)` once the request has finished with `outcome`.
      Without confirmation nothing happens. On success exactly the cards
      with that id leave the grid, the others keep their order; on failure
      the cards stay and the error is shown. Either way the grid is no
      longer deleting. */
  function HandleDelete(g: Grid, cardId: int, confirmed: bool, outcome: Outcome): (g': Grid)
    ensures !confirmed ==> g' == g
    ensures confirmed ==> g'.deletingId == None
    ensures confirmed && outcome.Succeeded? ==> g'.cards == Filter(g.cards, IdIsNot(cardId)) && g'.error == None
    ensures confirmed && outcome.Succeeded? ==>
      forall i :: 0 <= i < |g'.cards| ==> g'.cards[i].id != cardId
    ensures confirmed && outcome.Succeeded? ==>
      forall i :: 0 <= i < |g.cards| && g.cards[i].id != cardId ==> g.cards[i] in g'.cards
    ensures confirmed && outcome.Failed? ==>
      g'.cards == g.cards && g'.error == Some(DeleteFailureMessage(cardId, outcome.failure))
  {
    if !confirmed then g
    else
      match outcome
      case Succeeded =>
        var kept := Filter(g.cards, IdIsNot(cardId));
        assert forall i :: 0 <= i < |kept| ==> kept[i] in kept;
        Grid(kept, None, None)
      case Failed(f) => Grid(g.cards, Some(DeleteFailureMessage(cardId, f)), None)
  }

  /** Deleting keeps the order of the remaining cards: deleting from a
      split grid is deleting from each part. */
  lemma DeleteKeepsOrder(a: seq<CardData>, b: seq<CardData>, cardId: int)
    ensures HandleDelete(Grid(a + b, None, None), cardId, true, Succeeded).cards
      == HandleDelete(Grid(a, None, None), cardId, true, Succeeded).cards
       + HandleDelete(Grid(b, None, None), cardId, true, Succeeded).cards
  {
    FilterConcat(a, b, IdIsNot(cardId));
  }

  /** A successful delete removes as many cards as carried the id. */
  lemma {:induction false} DeleteCount(cards: seq<CardData>, cardId: int)
    ensures |Filter(cards, IdIsNot(cardId))| + CountOf(cards, (c: CardData) => c.id == cardId) == |cards|
    decreases |cards|
  {
    if |cards| > 0 {
      DeleteCount(cards[..|cards| - 1], cardId);
    }
  }

  /** Deleting the same card twice is deleting it once. */
  lemma DeleteIdempotent(g: Grid, cardId: int)
    ensures HandleDelete(HandleDelete(g, cardId, true, Succeeded), cardId, true, Succeeded)
      == HandleDelete(g, cardId, true, Succeeded)
  {
    FilterAll(Filter(g.cards, IdIsNot(cardId)), IdIsNot(cardId));
  }

  const LoadUnknownMessage := "Error desconocido al cargar las tarjetas."

  /** What the grid shows when `getCard` fails, as written. For a request
      error with a body `message`, `getCard` throws that string itself,
      not an `Error`, so `fetchCards` replaces it with its generic text. */
  function LoadErrorAsWritten(f: Failure): (m: string)
    ensures f.AxiosFailure? && f.status != Some(401) && Truthy(BodyMessage(f.data)) ==> m == LoadUnknownMessage
  {
    match f
    case AxiosFailure(status, data, _) =>
      if status == Some(401) then "Token de autenticación expirado o inválido."
      else if Truthy(BodyMessage(data)) then LoadUnknownMessage
      else "Error al obtener las tarjetas."
    case ErrorFailure(message) => message
    case OtherFailure => "Error desconocido al obtener las tarjetas."
  }

  /** A backend message never reaches the screen as written. */
  lemma BackendLoadMessageLost()
    ensures LoadErrorAsWritten(AxiosFailure(Some(403), JsonBody(Some("Cuenta bloqueada")), "Request failed"))
      != "Cuenta bloqueada"
  {
  }

  /** What the grid shows when `getCard` fails, with the backend's message
      thrown as an `Error` as its comment intends. */
  function LoadError(f: Failure): (m: string)
    ensures f.AxiosFailure? && f.status == Some(401) ==> m == "Token de autenticación expirado o inválido."
    ensures f.AxiosFailure? && f.status != Some(401) ==>
      m == (if Truthy(BodyMessage(f.data)) then BodyMessage(f.data).value else "Error al obtener las tarjetas.")
    ensures f.ErrorFailure? ==> m == f.message
  {
    match f
    case AxiosFailure(status, data, _) =>
      if status == Some(401) then "Token de autenticación expirado o inválido."
      else OrElse(BodyMessage(data), Some("Error al obtener las tarjetas.")).value
    case ErrorFailure(message) => message
    case OtherFailure => "Error desconocido al obtener las tarjetas."
  }

  /** The corrected load error shows every non-empty backend message of a
      request that was not refused as unauthorised. */
  lemma LoadErrorShowsBackendMessage(status: Option<int>, m: string, axiosMessage: string)
    requires status != Some(401) && m != ""
    ensures LoadError(AxiosFailure(status, JsonBody(Some(m)), axiosMessage)) == m
  {
  }
}
