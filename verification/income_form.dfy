/** The income form of
    `app/router/dashboard/accounts/income/components/IncomeForm.tsx`: the
    initial card taken from the query string, the required-field check of
    the submit handler and the banner it shows. */
module IncomeForm {
  import opened Wrappers

  datatype Kind = Failure | Success

  /** The banner: its kind and its text. */
  datatype Message = Message(kind: Kind, text: string)

  /** The form's state: the four inputs, as text, and the banner. */
  datatype Form = Form(cardId: string, amount: string, desc: string, date: string, message: Option<Message>)

  const MissingFieldsMessage := "Por favor completa todos los campos obligatorios."
  const RecordedMessage := "Ingreso registrado correctamente."
  const FailureClasses := "bg-red-100 border-red-400 text-red-700"
  const SuccessClasses := "bg-green-100 border-green-400 text-green-700"

  /** The card preselected from the `card` query parameter; an absent or
      empty parameter leaves the selection empty. */
  function InitialCard(selected: Option<string>): (r: string)
    ensures r != "" <==> selected.Some? && selected.value != ""
    ensures r != "" ==> r == selected.value
  {
    if selected.Some? && selected.value != "" then selected.value else ""
  }

  /** The form as first rendered. */
  function Initial(selected: Option<string>): (f: Form)
    ensures f.cardId == InitialCard(selected)
    ensures f.amount == "" && f.desc == "" && f.date == "" && f.message == None
  {
    Form(InitialCard(selected), "", "", "", None)
  }

  /** Every required field is filled in; the description is not required. */
  predicate Complete(f: Form) {
    f.cardId != "" && f.amount != "" && f.date != ""
  }

  /** `handleSubmit`: the previous banner is dropped, then an error banner
      if a required field is empty and a success banner otherwise. No input
      is changed. */
  function HandleSubmit(f: Form): (f': Form)
    ensures f'.cardId == f.cardId && f'.amount == f.amount && f'.desc == f.desc && f'.date == f.date
    ensures f'.message.Some?
    ensures f'.message.value.kind == Success <==> Complete(f)
    ensures f'.message.value.kind == Success ==> f'.message.value.text == RecordedMessage
    ensures f'.message.value.kind == Failure ==> f'.message.value.text == MissingFieldsMessage
  {
    var cleared := f.(message := None);
    if cleared.cardId == "" || cleared.amount == "" || cleared.date == "" then
      cleared.(message := Some(Message(Failure, MissingFieldsMessage)))
    else
      cleared.(message := Some(Message(Success, RecordedMessage)))
  }

  /** The banner's colour classes: none without a banner, red for an error
      and green for a success. */
  function MessageClasses(m: Option<Message>): (r: string)
    ensures r == "" <==> m.None?
    ensures r == FailureClasses <==> m.Some? && m.value.kind == Failure
    ensures r == SuccessClasses <==> m.Some? && m.value.kind == Success
  {
    match m
    case None => ""
    case Some(Message(Failure, _)) => FailureClasses
    case Some(Message(Success, _)) => SuccessClasses
  }

  /** The banner a submit shows does not depend on the banner before it. */
  lemma SubmitIgnoresPreviousMessage(f: Form, previous: Option<Message>)
    ensures HandleSubmit(f.(message := previous)) == HandleSubmit(f)
  {
  }

  /** The description never decides between error and success. */
  lemma DescriptionIsOptional(f: Form, desc: string)
    ensures HandleSubmit(f.(desc := desc)).message == HandleSubmit(f).message
  {
  }

  /** Submitting twice shows the same as submitting once. */
  lemma SubmitIdempotent(f: Form)
    ensures HandleSubmit(HandleSubmit(f)) == HandleSubmit(f)
  {
  }

  /** The freshly rendered form is always rejected: the amount and the date
      start empty, whatever card the link preselected. */
  lemma FreshFormIsRejected(selected: Option<string>)
    ensures HandleSubmit(Initial(selected)).message == Some(Message(Failure, MissingFieldsMessage))
  {
  }
}
