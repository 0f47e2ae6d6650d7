/** The data records and session helpers of `lib/auth-service.ts`.
    Browser storage is a `map<string, string>`; `hasWindow` says whether
    the code runs in a browser (`typeof window !== "undefined"`). */
module AuthService {
  import opened Wrappers
  import opened Numeric
  import opened Strings
  import opened Http

  type Storage = map<string, string>

  const AuthTokenKey := "authToken"
  const EmailKey := "email"
  const NameKey := "name"

  /** An account as the API returns it. `balance` is the result of
      `parseFloat` on the balance string; `createAt` is its timestamp. */
  datatype Account = Account(id: int, name: string, accountType: string, balance: Option<real>, createAt: int)

  /** The account embedded in a card. */
  datatype CardAccount = CardAccount(name: string, accountType: string, balance: Option<real>)

  /** A card as `GET /card` returns it; `balance` is `parseFloat` of the card's balance string. */
  datatype Card = Card(id: int, number: string, balance: Option<real>, account: CardAccount)

  datatype TransactionType = Deposit | Withdraw

  /** The account embedded in a transaction's card; `accountType` is absent
      when the server leaves it out. */
  datatype TxAccount = TxAccount(id: int, name: string, accountType: Option<string>)

  /** A transaction as the API sends it: amounts are still strings. */
  datatype RawCard = RawCard(id: int, number: string, account: TxAccount, balance: string)
  datatype RawTransaction = RawTransaction(
    id: int, transactionType: TransactionType, category: string, amount: string,
    description: string, createdAt: string, card: RawCard)

  /** A transaction after `getTransaction`'s mapping: `amount` may be NaN
      (`None`), the card balance never is. */
  datatype TxCard = TxCard(id: int, number: string, account: TxAccount, balance: real)
  datatype Transaction = Transaction(
    id: int, transactionType: TransactionType, category: string, amount: Option<real>,
    description: string, createdAt: string, card: TxCard)

  /** The body of a successful login. */
  datatype LoginResponse = LoginResponse(token: string, email: string, name: string)

  /** The avatar initial and display name shown for the signed-in user. */
  datatype Identity = Identity(initial: string, name: string)

  const TokenExpiredMessage := "Token de autenticación expirado o inválido. Por favor, inicie sesión de nuevo."
  const TokenMissingMessage := "Token de autenticación no encontrado. Inicie sesión."

  /** The message of the `Error` that `throwApiError` throws. */
  function ApiErrorMessage(e: Failure, defaultMessage: string): (m: string)
    ensures e.AxiosFailure? && e.status == Some(401) ==> m == TokenExpiredMessage
    ensures !e.AxiosFailure? ==> m == defaultMessage
    ensures e.AxiosFailure? && e.status != Some(401) ==>
      m == (if Truthy(BodyMessage(e.data)) then BodyMessage(e.data).value
            else if e.data.TextBody? && e.data.text != "" then e.data.text
            else if e.message != "" then e.message
            else defaultMessage)
  {
    match e
    case AxiosFailure(status, data, message) =>
      if status == Some(401) then TokenExpiredMessage
      else
        var text := if data.TextBody? then Some(data.text) else None;
        var api := OrElse(OrElse(BodyMessage(data), text), Some(message));
        OrElse(api, Some(defaultMessage)).GetOr(defaultMessage)
    case _ => defaultMessage
  }

  /** `localStorage.getItem(key)` when a window exists, else `null`. */
  function GetItem(st: Storage, hasWindow: bool, key: string): Option<string> {
    if hasWindow && key in st then Some(st[key]) else None
  }

  /** `getAuthHeaders`: the `Authorization` header value, or the error it throws. */
  function AuthHeader(st: Storage, hasWindow: bool): (r: Result<string, string>)
    ensures r.Ok? <==> hasWindow && AuthTokenKey in st && st[AuthTokenKey] != ""
    ensures r.Ok? ==> r.value == "Bearer " + st[AuthTokenKey]
    ensures r.Err? ==> r.error == TokenMissingMessage
  {
    var token := GetItem(st, hasWindow, AuthTokenKey);
    if !Truthy(token) then Err(TokenMissingMessage) else Ok("Bearer " + token.value)
  }

  /** `getInitialAndName`: the stored name, else the stored email, else "Usuario". */
  function InitialAndName(st: Storage, hasWindow: bool): (r: Identity)
    ensures !hasWindow ==> r == Identity("?", "Cargando...")
    ensures hasWindow && NameKey in st && st[NameKey] != "" ==> r.name == st[NameKey]
    ensures hasWindow && !(NameKey in st && st[NameKey] != "") && EmailKey in st && st[EmailKey] != "" ==>
      r.name == st[EmailKey]
    ensures hasWindow && !(NameKey in st && st[NameKey] != "") && !(EmailKey in st && st[EmailKey] != "") ==>
      r == Identity("U", "Usuario")
    ensures hasWindow && r.name != "Usuario" ==> r.initial == [UpperChar(r.name[0])]
  {
    if !hasWindow then Identity("?", "Cargando...")
    else
      var display := OrElse(GetItem(st, hasWindow, NameKey), GetItem(st, hasWindow, EmailKey));
      if Truthy(display) then Identity(Initial(display.value), display.value)
      else Identity("U", "Usuario")
  }

  /** The record mapping of `getTransaction`: `amount` is parsed with no
      fallback, the card balance with a fallback to 0, every other field is
      copied. */
  function ProcessTransaction(t: RawTransaction, parse: Parser): (p: Transaction)
    ensures p.amount == parse(t.amount)
    ensures parse(t.card.balance).None? ==> p.card.balance == 0.0
    ensures parse(t.card.balance).Some? ==> p.card.balance == parse(t.card.balance).value
    ensures p.id == t.id && p.transactionType == t.transactionType && p.category == t.category
    ensures p.description == t.description && p.createdAt == t.createdAt
    ensures p.card.id == t.card.id && p.card.number == t.card.number && p.card.account == t.card.account
  {
    Transaction(t.id, t.transactionType, t.category, parse(t.amount), t.description, t.createdAt,
                TxCard(t.card.id, t.card.number, t.card.account, OrZero(parse(t.card.balance))))
  }

  /** `getTransaction` applied to a whole response. */
  function ProcessTransactions(ts: seq<RawTransaction>, parse: Parser): (ps: seq<Transaction>)
    ensures |ps| == |ts|
    ensures forall i :: 0 <= i < |ts| ==> ps[i] == ProcessTransaction(ts[i], parse)
  {
    seq(|ts|, i requires 0 <= i < |ts| => ProcessTransaction(ts[i], parse))
  }

  /** The storage writes of `loginUser` after a successful response. */
  function StoreLogin(st: Storage, hasWindow: bool, resp: LoginResponse): (st': Storage)
    ensures !hasWindow ==> st' == st
    ensures hasWindow ==> st'.Keys == st.Keys + {AuthTokenKey, EmailKey, NameKey}
    ensures hasWindow ==> st'[AuthTokenKey] == resp.token && st'[EmailKey] == resp.email && st'[NameKey] == resp.name
    ensures forall k :: k in st && k !in {AuthTokenKey, EmailKey, NameKey} ==> k in st' && st'[k] == st[k]
  {
    if hasWindow then st[AuthTokenKey := resp.token][EmailKey := resp.email][NameKey := resp.name] else st
  }

  /** After a login with a non-empty token, every privileged request carries it. */
  lemma LoginAuthorizes(st: Storage, resp: LoginResponse)
    requires resp.token != ""
    ensures AuthHeader(StoreLogin(st, true, resp), true) == Ok("Bearer " + resp.token)
  {
  }
}
