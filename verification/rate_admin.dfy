/** The exchange-rate administration screen of
    `app/router/dashboard/exchangerate/components/componet.tsx`: creating,
    editing and deleting server-side rates. Each handler is a function from
    the screen's state and the outcomes of its remote calls to the new state
    and the request it sent, if any. */
module RateAdmin {
  import opened Wrappers
  import opened Numeric
  import opened Strings
  import opened Http

  /** One server-side rate. */
  datatype Tasa = Tasa(id: int, currency: string, rateToUSD: real)

  /** The request a handler sends; `rateToUSD` is `parseFloat` of the
      input, `None` where that is NaN. */
  datatype Request =
    | Create(currency: string, rateToUSD: Option<real>)
    | Update(id: int, rateToUSD: Option<real>)
    | Delete(id: int)

  /** How the `loadTasas` that follows a successful change ended. */
  datatype Reload = Loaded(data: seq<Tasa>) | LoadFailed

  /** The screen's state: the listed rates, the two inputs of the create
      form, the error and success banners, and the row being edited. */
  datatype Screen = Screen(
    tasas: seq<Tasa>, currency: string, rate: string,
    error: Option<string>, message: Option<string>,
    editId: Option<int>, editRate: string)

  /** A handler's result: the new state and the request sent, if any. */
  datatype Step = Step(screen: Screen, request: Option<Request>)

  const MissingFieldsMessage := "Por favor completa todos los campos."
  const CreateFailedMessage := "Error al crear la tasa. Verifica los datos."
  const EmptyRateMessage := "La tasa no puede estar vacía."
  const UpdatedMessage := "Tasa de cambio actualizada correctamente"
  const UpdateFailedMessage := "Error al actualizar la tasa"
  const DeleteFailedMessage := "Error al eliminar la tasa"
  const LoadFailedMessage := "Error al cargar las tasas de cambio"

  function CreatedMessage(code: string): string {
    "Tasa de " + code + " creada correctamente"
  }

  /** `loadTasas`: the list is replaced, or the load error is shown. */
  function ApplyReload(s: Screen, reload: Reload): (s': Screen)
    ensures reload.Loaded? ==> s' == s.(tasas := reload.data)
    ensures reload.LoadFailed? ==> s' == s.(error := Some(LoadFailedMessage))
  {
    match reload
    case Loaded(data) => s.(tasas := data)
    case LoadFailed => s.(error := Some(LoadFailedMessage))
  }

  /** `handleCreate`. Both banners are cleared first. With an empty input
      nothing is sent and the missing-fields error is shown. Otherwise the
      upper-cased code and the parsed rate are sent; on success the
      inputs are cleared, the success message names the code and the list
      is reloaded; on failure the inputs stay and the error is shown. */
  function HandleCreate(s: Screen, parse: Parser, outcome: Outcome, reload: Reload): (st: Step)
    ensures s.currency == "" || s.rate == "" ==>
      st == Step(s.(error := Some(MissingFieldsMessage), message := None), None)
    ensures s.currency != "" && s.rate != "" ==>
      st.request == Some(Create(Upper(s.currency), parse(s.rate)))
    ensures s.currency != "" && s.rate != "" && outcome.Succeeded? ==>
      && st.screen.message == Some(CreatedMessage(Upper(s.currency)))
      && st.screen.currency == "" && st.screen.rate == ""
      && st.screen.tasas == (if reload.Loaded? then reload.data else s.tasas)
      && st.screen.error == (if reload.Loaded? then None else Some(LoadFailedMessage))
    ensures s.currency != "" && s.rate != "" && outcome.Failed? ==>
      st.screen == s.(error := Some(CreateFailedMessage), message := None)
    ensures st.screen.editId == s.editId && st.screen.editRate == s.editRate
  {
    var cleared := s.(error := None, message := None);
    if s.currency == "" || s.rate == "" then
      Step(cleared.(error := Some(MissingFieldsMessage)), None)
    else
      var code := Upper(s.currency);
      var request := Create(code, parse(s.rate));
      match outcome
      case Succeeded =>
        Step(ApplyReload(cleared.(message := Some(CreatedMessage(code)), currency := "", rate := ""), reload), Some(request))
      case Failed(_) =>
        Step(cleared.(error := Some(CreateFailedMessage)), Some(request))
  }

  /** `handleEdit`: edit mode on the row, its rate in the input. `show` is
      `String` on numbers. */
  function HandleEdit(s: Screen, t: Tasa, show: real -> string): (s': Screen)
    ensures s'.editId == Some(t.id) && s'.editRate == show(t.rateToUSD)
    ensures s' == s.(editId := s'.editId, editRate := s'.editRate)
  {
    s.(editId := Some(t.id), editRate := show(t.rateToUSD))
  }

  /** `handleCancelEdit`: out of edit mode, input emptied. */
  function HandleCancelEdit(s: Screen): (s': Screen)
    ensures s'.editId == None && s'.editRate == ""
    ensures s' == s.(editId := None, editRate := "")
  {
    s.(editId := None, editRate := "")
  }

  /** `handleUpdate(id)`. An empty input is refused: nothing is sent, the
      error is shown and the screen stays in edit mode; banners are not
      cleared first. Otherwise the parsed rate is sent; on success the
      success message is shown, edit mode ends and the list is reloaded;
      on failure the error is shown and edit mode stays. */
  function HandleUpdate(s: Screen, id: int, parse: Parser, outcome: Outcome, reload: Reload): (st: Step)
    ensures s.editRate == "" ==> st == Step(s.(error := Some(EmptyRateMessage)), None)
    ensures s.editRate != "" ==> st.request == Some(Update(id, parse(s.editRate)))
    ensures s.editRate != "" && outcome.Succeeded? ==>
      && st.screen.editId == None
      && st.screen.message == Some(UpdatedMessage)
      && st.screen.error == (if reload.Loaded? then s.error else Some(LoadFailedMessage))
    ensures s.editRate != "" && outcome.Failed? ==> st.screen == s.(error := Some(UpdateFailedMessage))
    ensures st.screen.currency == s.currency && st.screen.rate == s.rate && st.screen.editRate == s.editRate
  {
    if s.editRate == "" then Step(s.(error := Some(EmptyRateMessage)), None)
    else
      var request := Update(id, parse(s.editRate));
      match outcome
      case Succeeded => Step(ApplyReload(s.(message := Some(UpdatedMessage), editId := None), reload), Some(request))
      case Failed(_) => Step(s.(error := Some(UpdateFailedMessage)), Some(request))
  }

  /** `handleDelete(id)`: nothing without confirmation; otherwise the
      delete is sent, then the list is reloaded on success or the error is
      shown on failure. */
  function HandleDelete(s: Screen, id: int, confirmed: bool, outcome: Outcome, reload: Reload): (st: Step)
    ensures !confirmed ==> st == Step(s, None)
    ensures confirmed ==> st.request == Some(Delete(id))
    ensures confirmed && outcome.Succeeded? ==> st.screen == ApplyReload(s, reload)
    ensures confirmed && outcome.Failed? ==> st.screen == s.(error := Some(DeleteFailedMessage))
  {
    if !confirmed then Step(s, None)
    else
      match outcome
      case Succeeded => Step(ApplyReload(s, reload), Some(Delete(id)))
      case Failed(_) => Step(s.(error := Some(DeleteFailedMessage)), Some(Delete(id)))
  }

  /** Cancelling an edit undoes entering it, whatever the row. */
  lemma CancelUndoesEdit(s: Screen, t: Tasa, show: real -> string)
    requires s.editId.None? && s.editRate == ""
    ensures HandleCancelEdit(HandleEdit(s, t, show)) == s
  {
  }

  /** Every create that sends a request sends an upper-case code; the
      same input in any case sends the same request. */
  lemma CreateCodeIsUpperCase(s: Screen, parse: Parser, outcome: Outcome, reload: Reload)
    requires s.currency != "" && s.rate != ""
    ensures HandleCreate(s, parse, outcome, reload).request.Some?
    ensures Upper(HandleCreate(s, parse, outcome, reload).request.value.currency)
      == HandleCreate(s, parse, outcome, reload).request.value.currency
    ensures HandleCreate(s.(currency := Upper(s.currency)), parse, outcome, reload).request
      == HandleCreate(s, parse, outcome, reload).request
  {
    UpperIdempotent(s.currency);
  }

  /** Editing a row and saving it unchanged sends the row's own rate, as
      `show` prints it and `parse` reads it back, and leaves edit mode on
      success. */
  lemma EditThenSave(s: Screen, t: Tasa, show: real -> string, parse: Parser, reload: Reload)
    requires show(t.rateToUSD) != ""
    ensures HandleUpdate(HandleEdit(s, t, show), t.id, parse, Succeeded, reload).request
      == Some(Update(t.id, parse(show(t.rateToUSD))))
    ensures HandleUpdate(HandleEdit(s, t, show), t.id, parse, Succeeded, reload).screen.editId == None
  {
  }
}
