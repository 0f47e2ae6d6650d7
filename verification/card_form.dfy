/** The new-card form of `app/router/dashboard/accounts/card/page.tsx`:
    field edits, the submit handler's validation, the request it builds and
    the messages it shows. */
module CardForm {
  import opened Wrappers
  import opened Numeric
  import opened Http

  /** The form's state. `success` and `error` are the two banners; `loading`
      disables the submit button. */
  datatype Form = Form(number: string, account: string, loading: bool, success: Option<string>, error: Option<string>)

  /** The body of `POST /card`. */
  datatype NewCard = NewCard(number: string, account: int)

  /** A submit's result: the new state and the request sent, if any. */
  datatype Submitted = Submitted(form: Form, request: Option<NewCard>)

  datatype Field = NumberField | AccountField

  const InvalidMessage := "Por favor, verifica el número de tarjeta (mín. 10 dígitos) y el ID de cuenta."
  const CreatedMessage := "¡Tarjeta creada exitosamente! Redirigiendo..."
  const UnknownFailureMessage := "Error al conectar con el servidor o desconocido."

  /** `handleChange`: the edited field takes the value, both banners clear. */
  function HandleChange(f: Form, field: Field, value: string): (f': Form)
    ensures field == NumberField ==> f'.number == value && f'.account == f.account
    ensures field == AccountField ==> f'.account == value && f'.number == f.number
    ensures f'.success == None && f'.error == None && f'.loading == f.loading
  {
    match field
    case NumberField => f.(number := value, success := None, error := None)
    case AccountField => f.(account := value, success := None, error := None)
  }

  /** The check of `handleSubmit`: at least 10 characters of card number
      (only the length is checked) and an account id that parses to a
      positive integer. */
  predicate Valid(f: Form, parseInt: IntParser) {
    |f.number| >= 10 && parseInt(f.account).Some? && parseInt(f.account).value > 0
  }

  /** The message shown when `createCard` fails: the body's `message` or
      else axios's own message for a request error, the message of any
      other `Error`, and a generic text otherwise. */
  function FailureMessage(e: Failure): (m: string)
    ensures e.AxiosFailure? ==> m == (if Truthy(BodyMessage(e.data)) then BodyMessage(e.data).value else e.message)
    ensures e.ErrorFailure? ==> m == e.message
    ensures e.OtherFailure? ==> m == UnknownFailureMessage
  {
    match e
    case AxiosFailure(_, data, message) => OrElse(BodyMessage(data), Some(message)).value
    case ErrorFailure(message) => message
    case OtherFailure => UnknownFailureMessage
  }

  /** `handleSubmit` as written. `f.success` is also the value the handler
      closed over when it was rendered: its `finally` reads that stale
      value, so after a success `loading` is turned off unless a success
      banner was already showing. */
  function HandleSubmitAsWritten(f: Form, parseInt: IntParser, outcome: Outcome): (r: Submitted)
    ensures Valid(f, parseInt) && outcome.Succeeded? ==> r.form.loading == Truthy(f.success)
  {
    var cleared := f.(loading := true, error := None, success := None);
    if !Valid(f, parseInt) then
      Submitted(cleared.(error := Some(InvalidMessage), loading := false), None)
    else
      var request := NewCard(f.number, parseInt(f.account).value);
      match outcome
      case Succeeded => Submitted(cleared.(success := Some(CreatedMessage), loading := Truthy(f.success)), Some(request))
      case Failed(e) => Submitted(cleared.(error := Some(FailureMessage(e)), loading := Truthy(f.success)), Some(request))
  }

  /** From a fresh render, a successful submit re-enables the button while
      the redirect is still pending. */
  lemma SuccessReenablesButton(f: Form, parseInt: IntParser)
    requires Valid(f, parseInt) && f.success == None
    ensures !HandleSubmitAsWritten(f, parseInt, Succeeded).form.loading
  {
  }

  /** `handleSubmit` as its comment intends: the button stays disabled
      after a success, until the redirect, and is re-enabled after an
      invalid form or a failure. An invalid form sends nothing and shows
      the validation error; a valid one sends the number verbatim with the
      parsed account id. */
  function HandleSubmit(f: Form, parseInt: IntParser, outcome: Outcome): (r: Submitted)
    ensures !Valid(f, parseInt) ==>
      r == Submitted(f.(loading := false, success := None, error := Some(InvalidMessage)), None)
    ensures Valid(f, parseInt) ==> r.request == Some(NewCard(f.number, parseInt(f.account).value))
    ensures Valid(f, parseInt) && outcome.Succeeded? ==>
      r.form.success == Some(CreatedMessage) && r.form.error == None && r.form.loading
    ensures Valid(f, parseInt) && outcome.Failed? ==>
      r.form.error == Some(FailureMessage(outcome.failure)) && r.form.success == None && !r.form.loading
    ensures r.form.number == f.number && r.form.account == f.account
  {
    var cleared := f.(loading := true, error := None, success := None);
    if !Valid(f, parseInt) then
      Submitted(cleared.(error := Some(InvalidMessage), loading := false), None)
    else
      var request := NewCard(f.number, parseInt(f.account).value);
      match outcome
      case Succeeded => Submitted(cleared.(success := Some(CreatedMessage)), Some(request))
      case Failed(e) => Submitted(cleared.(error := Some(FailureMessage(e)), loading := false), Some(request))
  }

  /** The two versions differ only in `loading`. */
  lemma OnlyLoadingDiffers(f: Form, parseInt: IntParser, outcome: Outcome)
    ensures HandleSubmitAsWritten(f, parseInt, outcome).request == HandleSubmit(f, parseInt, outcome).request
    ensures HandleSubmitAsWritten(f, parseInt, outcome).form
      == HandleSubmit(f, parseInt, outcome).form.(loading := HandleSubmitAsWritten(f, parseInt, outcome).form.loading)
  {
  }

  /** Only the length of the number is checked: ten letters pass. */
  lemma LettersPass(f: Form, parseInt: IntParser)
    requires f.number == "abcdefghij" && parseInt(f.account) == Some(7)
    ensures HandleSubmit(f, parseInt, Succeeded).request == Some(NewCard("abcdefghij", 7))
  {
  }

  /** A request is sent exactly when the form is valid, and it carries a
      positive account id and a number of at least ten characters. */
  lemma RequestIffValid(f: Form, parseInt: IntParser, outcome: Outcome)
    ensures HandleSubmit(f, parseInt, outcome).request.Some? <==> Valid(f, parseInt)
    ensures HandleSubmit(f, parseInt, outcome).request.Some? ==>
      HandleSubmit(f, parseInt, outcome).request.value.account > 0
      && |HandleSubmit(f, parseInt, outcome).request.value.number| >= 10
  {
  }
}
